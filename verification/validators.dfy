/**
 The three input checks of src/utils/validators.py: product records,
 tracking events and prediction requests. Each takes a request body (a dict)
 and answers whether it is acceptable.
 */
module Validators {
  import opened Wrappers
  import opened PyValues
  import opened PyStr
  import opened PyRe

  /** The exceptions the checks let escape. */
  datatype PyError =
    | TypeError  // `re.match` given something other than a string

  /** `d[k]` exists and is a `str` with at least one character. */
  predicate IsNonEmptyStrAt(d: Dict, k: string)
  {
    var v := Lookup(d, k);
    v.Some? && v.value.VStr? && |v.value.s| >= 1
  }

  // ---------------------------------------------------------------------------
  // validate_product_data

  /** The three keys are present, the name is a non-empty string and the
      batch number is a string of the batch shape. */
  predicate IsValidProduct(d: Dict)
  {
    && HasKey(d, "manufacturer")
    && IsNonEmptyStrAt(d, "name")
    && Lookup(d, "batch_number").Some?
    && Lookup(d, "batch_number").value.VStr?
    && IsBatchNumber(Lookup(d, "batch_number").value.s)
  }

  /** `validate_product_data`: Ok(answer), or the TypeError `re.match` raises
      when a record that passed the name check has a non-string batch number. */
  function ValidateProductData(d: Dict): (r: Result<bool, PyError>)
    ensures !HasKey(d, "name") || !HasKey(d, "manufacturer") || !HasKey(d, "batch_number") ==> r == Ok(false)
    ensures HasKey(d, "name") && !IsNonEmptyStrAt(d, "name") ==> r == Ok(false)
    ensures r == Ok(true) <==> IsValidProduct(d)
    ensures r.Err? <==>
      && HasKey(d, "manufacturer") && IsNonEmptyStrAt(d, "name")
      && HasKey(d, "batch_number") && !Lookup(d, "batch_number").value.VStr?
  {
    if !(HasKey(d, "name") && HasKey(d, "manufacturer") && HasKey(d, "batch_number")) then Ok(false)
    else if !IsNonEmptyStrAt(d, "name") then Ok(false)
    else
      match Lookup(d, "batch_number").value
      case VStr(b) =>
        BatchPatternIsBatchNumber(b);
        Ok(Match(BatchPattern(), b))
      case _ => Err(TypeError)
  }

  /** The manufacturer must be present but its value is never looked at. */
  lemma ManufacturerNotInspected(d: Dict, v: Value)
    requires HasKey(d, "manufacturer")
    ensures ValidateProductData(Set(d, "manufacturer", v)) == ValidateProductData(d)
  {
  }

  // ---------------------------------------------------------------------------
  // validate_tracking_event

  const EventTypes: seq<string> := ["created", "shipped", "received", "stored", "delivered"]

  /** The list `valid_event_types` as Python values; `in` compares with `==`,
      which is false between a `str` and any other type. */
  const EventValues: seq<Value> :=
    [VStr("created"), VStr("shipped"), VStr("received"), VStr("stored"), VStr("delivered")]

  /** The timestamp check: a string is normalised ("Z" becomes "+00:00") and
      handed to `datetime.fromisoformat`, whose ValueError means false; `int`,
      `float` and `bool` (a subclass of `int`) pass; anything else fails. */
  predicate TimestampOk(ts: Value, isIso: string -> bool)
  {
    match ts
    case VStr(t) => isIso(ReplaceChar(t, 'Z', "+00:00"))
    case VInt(_) => true
    case VFloat(_) => true
    case VBool(_) => true
    case _ => false
  }

  /** `validate_tracking_event`; `isIso(t)` stands for
      `datetime.fromisoformat(t)` returning without a ValueError. */
  function ValidateTrackingEvent(d: Dict, isIso: string -> bool): (r: bool)
    ensures !HasKey(d, "location") || !HasKey(d, "timestamp") || !HasKey(d, "event_type") ==> !r
    ensures HasKey(d, "location") && !IsNonEmptyStrAt(d, "location") ==> !r
    ensures r <==>
      && IsNonEmptyStrAt(d, "location")
      && Lookup(d, "event_type").Some?
      && Lookup(d, "event_type").value.VStr?
      && Lookup(d, "event_type").value.s in EventTypes
      && Lookup(d, "timestamp").Some?
      && (var ts := Lookup(d, "timestamp").value;
          || ts.VInt? || ts.VFloat? || ts.VBool?
          || (ts.VStr? && isIso(ReplaceChar(ts.s, 'Z', "+00:00"))))
  {
    if !(HasKey(d, "location") && HasKey(d, "timestamp") && HasKey(d, "event_type")) then false
    else if !TimestampOk(Lookup(d, "timestamp").value, isIso) then false
    else if !IsNonEmptyStrAt(d, "location") then false
    else if Lookup(d, "event_type").value !in EventValues then false
    else true
  }

  /** The ISO parser is only ever asked about strings without a "Z": two
      parsers that agree on those give the same verdict on every event. */
  lemma TrackingIsoSeesNoZ(d: Dict, isIso1: string -> bool, isIso2: string -> bool)
    requires forall t | 'Z' !in t :: isIso1(t) == isIso2(t)
    ensures ValidateTrackingEvent(d, isIso1) == ValidateTrackingEvent(d, isIso2)
  {
  }

  /** A numeric or boolean timestamp never reaches the ISO parser. */
  lemma TrackingNumericTimestamp(d: Dict, isIso1: string -> bool, isIso2: string -> bool)
    requires HasKey(d, "timestamp")
    requires !Lookup(d, "timestamp").value.VStr?
    ensures ValidateTrackingEvent(d, isIso1) == ValidateTrackingEvent(d, isIso2)
  {
  }

  // ---------------------------------------------------------------------------
  // validate_prediction_data

  /** `d[k]` exists and is a `list`. */
  predicate IsListAt(d: Dict, k: string)
  {
    var v := Lookup(d, k);
    v.Some? && v.value.VList?
  }

  /** `validate_prediction_data`. */
  function ValidatePredictionData(d: Dict): (r: bool)
    ensures r <==> IsListAt(d, "historical_data") && IsListAt(d, "features")
  {
    if !(HasKey(d, "historical_data") && HasKey(d, "features")) then false
    else if !Lookup(d, "historical_data").value.VList? then false
    else if !Lookup(d, "features").value.VList? then false
    else true
  }

  /** Only the list-ness of the two values matters, never their contents:
      any dict given two lists under those keys is accepted. */
  lemma PredictionIgnoresContents(d: Dict, history: seq<Value>, features: seq<Value>)
    ensures ValidatePredictionData(Set(Set(d, "historical_data", VList(history)), "features", VList(features)))
  {
  }
}
