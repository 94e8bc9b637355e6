/**
 Worked inputs for the checks in src/utils/validators.py, including the edge
 cases of the batch-number pattern and of the timestamp check.
 */
module CheckExamples {
  import opened Wrappers
  import opened PyValues
  import opened PyStr
  import opened Validators
  import opened Sanitize

  function Product(name: Value, batch: Value): Dict
  {
    [("name", name), ("manufacturer", VStr("M1")), ("batch_number", batch)]
  }

  /** The documented batch number is accepted. */
  lemma WidgetAccepted()
    ensures ValidateProductData(Product(VStr("Widget"), VStr("BATCH-2024-001"))) == Ok(true)
  {
  }

  /** `$` also matches before a final newline, so a trailing "\n" passes. */
  lemma TrailingNewlineAccepted()
    ensures ValidateProductData(Product(VStr("Widget"), VStr("BATCH-2024-001\n"))) == Ok(true)
  {
  }

  /** A batch number one digit short is refused. */
  lemma ShortBatchRefused()
    ensures ValidateProductData(Product(VStr("Widget"), VStr("BATCH-2024-01"))) == Ok(false)
  {
  }

  /** A non-string batch number makes `re.match` raise. */
  lemma IntegerBatchRaises()
    ensures ValidateProductData(Product(VStr("Widget"), VInt(2024001))) == Err(TypeError)
  {
  }

  /** The name is checked first: an empty name is refused before the batch
      number could raise. */
  lemma EmptyNameShortCircuits()
    ensures ValidateProductData(Product(VStr(""), VInt(2024001))) == Ok(false)
  {
  }

  /** The key is `batch_number`; a record that calls it `batch` is refused. */
  lemma BatchKeyRefused()
    ensures ValidateProductData([("name", VStr("Widget")), ("manufacturer", VStr("M1")), ("batch", VStr("BATCH-2024-001"))]) == Ok(false)
  {
  }

  function Event(ts: Value, eventType: string): Dict
  {
    [("location", VStr("Warehouse 1")), ("timestamp", ts), ("event_type", VStr(eventType))]
  }

  /** A trailing "Z" (UTC) reaches the ISO parser as "+00:00". */
  lemma ZuluTimestampNormalised(date: string, isIso: string -> bool)
    requires 'Z' !in date
    ensures ValidateTrackingEvent(Event(VStr(date + "Z"), "shipped"), isIso) == isIso(date + "+00:00")
  {
    var d := Event(VStr(date + "Z"), "shipped");
    ReplaceCharAppend(date, "Z", 'Z', "+00:00");
    assert ReplaceChar("Z", 'Z', "+00:00") == "+00:00";
    assert ReplaceChar(date + "Z", 'Z', "+00:00") == date + "+00:00";
    var rest := [("event_type", VStr("shipped"))];
    assert d == [d[0]] + ([d[1]] + rest);
    LookupCons(d[0], [d[1]] + rest, "event_type");
    LookupCons(d[1], rest, "event_type");
    assert Lookup(d, "event_type") == Some(VStr("shipped"));
    assert VStr("shipped") in EventValues;
    assert Lookup(d, "timestamp") == Some(VStr(date + "Z"));
    assert Lookup(d, "location") == Some(VStr("Warehouse 1"));
    assert TimestampOk(VStr(date + "Z"), isIso) == isIso(date + "+00:00");
  }

  /** `bool` is a subclass of `int`, so `True` is a valid timestamp. */
  lemma BoolTimestampAccepted(isIso: string -> bool)
    ensures ValidateTrackingEvent(Event(VBool(true), "stored"), isIso)
  {
  }

  /** `None` is neither a string nor a number. */
  lemma NoneTimestampRefused(isIso: string -> bool)
    ensures !ValidateTrackingEvent(Event(VNone, "stored"), isIso)
  {
  }

  /** Event types outside the five known ones are refused. */
  lemma UnknownEventTypeRefused(isIso: string -> bool)
    ensures !ValidateTrackingEvent(Event(VInt(1700000000), "lost"), isIso)
  {
  }

  /** Inside a nested dict, numbers are kept and strings are filtered. */
  lemma NestedValuesKept()
    ensures SanitizeValue(VDict([("b", VInt(5)), ("c", VStr("\U{1}x"))]))
         == VDict([("b", VInt(5)), ("c", VStr("x"))])
  {
    assert StripControl("\U{1}x") == "x";
  }
}
