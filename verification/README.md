# Input checks of the supply-chain tracker, in Dafny

This project models `src/utils/validators.py` of the supply-chain tracking
service: the pure helpers that decide whether a product record, a tracking
event or a prediction request is acceptable, the recursive sanitiser that
cleans request bodies, and the formatter that shapes a ledger response for
the API. Everything is a pure function over an immutable model of the
JSON-like Python values these helpers receive.

Modules:

- `Wrappers` (`wrappers.dfy`): `Option` and `Result`.
- `PyValues` (`py_values.dfy`): the `Value` datatype (`str`, `int`, `float`,
  `bool`, `None`, `list`, `dict`). A dict is its item list in insertion order.
  It comes with `k in d` (`HasKey`), `d[k]` (`Lookup`), `d.get` (`Get`) and
  `d[k] = v` (`Set`).
- `PyStr` (`py_str.dfy`): the string operations used. These are the
  control-character filter, `s[:n]` and `str.replace` with a one-character
  pattern. All of them work on code points.
- `PyRe` (`py_re.dfy`): `re.match` for the fragment the batch pattern uses:
  `^`, `$`, literals and `\d`. It is paired with a character-by-character
  definition of a batch number and a proof that the two agree.
- `Validators` (`validators.dfy`): `validate_product_data`,
  `validate_tracking_event` and `validate_prediction_data`.
- `Sanitize` (`sanitize.dfy`): `sanitize_input`.
- `Response` (`response.dfy`): `format_blockchain_response`.
- `CheckExamples` (`examples.dfy`): worked inputs, including the edge cases of
  the pattern and of the timestamp check.

Exceptions the Python code lets escape become `Err` values: a non-string
`batch_number` makes `re.match` raise `TypeError`, and the model returns
`Err(TypeError)` there. `datetime.fromisoformat` is the function parameter
`isIso`: `isIso(t)` means the parse returns without a `ValueError`. The clock
reading `datetime.utcnow().isoformat()` is the string parameter `now`.

The product check looks for the key `batch_number`; a record that names the
batch `batch` is refused (`CheckExamples.BatchKeyRefused`).

## Model

| member | source | states |
|---|---|---|
| `Validators.ValidateProductData` | src/utils/validators.py:6-22 | Missing `name`, `manufacturer` or `batch_number` gives False. So does a `name` that is not a non-empty str. The answer is True exactly when, in addition, `batch_number` is a str that is a batch number (`IsBatchNumber`). `TypeError` is raised exactly when the first checks pass and `batch_number` is not a str. |
| `Validators.ManufacturerNotInspected` | src/utils/validators.py:7-15 | `manufacturer` must be present, but replacing its value never changes the answer. |
| `PyRe.BatchPatternIsBatchNumber` | src/utils/validators.py:18-19 | `re.match(r"^BATCH-\d{4}-\d{3}$", s)` succeeds iff `s` is "BATCH-", 4 digits, "-", 3 digits, optionally followed by one "\n". |
| `PyRe.MatchCharItems` | src/utils/validators.py:18-19 | A run of literal and `\d` items matches iff each consumes one accepted character, and matching then continues right after the run. |
| `PyRe.BatchShapeByItems` | src/utils/validators.py:18 | A 14-character string accepted item by item by `BATCH-\d{4}-\d{3}` is exactly one of batch shape. |
| `Validators.ValidateTrackingEvent` | src/utils/validators.py:25-50 | Missing `location`, `timestamp` or `event_type` gives False, and so does a `location` that is not a non-empty str. True holds iff all of these hold: `location` is a non-empty str; `event_type` is one of created/shipped/received/stored/delivered; the timestamp is an int, float or bool, or a str that the ISO parser accepts after each "Z" becomes "+00:00". |
| `Validators.TrackingIsoSeesNoZ` | src/utils/validators.py:34-35 | The ISO parser is only consulted on strings without "Z". Two parsers that agree on such strings give the same verdict on every event. |
| `Validators.TrackingNumericTimestamp` | src/utils/validators.py:36-37 | A non-string timestamp never reaches the ISO parser. |
| `Validators.ValidatePredictionData` | src/utils/validators.py:53-68 | True iff `historical_data` and `features` are both present and both lists. |
| `Validators.PredictionIgnoresContents` | src/utils/validators.py:60-66 | Only list-ness matters. Any dict with lists stored under both keys is accepted, whatever the lists hold. |
| `Sanitize.SanitizeInput` | src/utils/validators.py:71-94 | The output is clean: no string value, directly or in a nested dict or a dict inside a list, has a character below 32 or more than 1000 characters. It is the input rewritten at every nesting level (`SanitisedDict`): keys keep their order, every string becomes `SanitizeString` of itself, nested dicts (as values or as list elements) are rewritten the same way, lists keep their length, and list elements that are not dicts, numbers, bools and None are unchanged. |
| `Sanitize.SanitizeValue` | src/utils/validators.py:76-90 | A rewritten value is clean and is its original rewritten at every nesting level: a string becomes its sanitised form, a dict is sanitised key by key with its nested numbers, bools and None kept, and a list keeps its length, its non-dict elements unchanged and its dict elements sanitised. |
| `Sanitize.SanitizeListItem` | src/utils/validators.py:86-89 | A dict element of a list becomes a clean dict with the same keys in order, each value rewritten as `sanitize_input` rewrites it at every nesting level. Any other element is returned unchanged. |
| `Sanitize.SanitisedUnique` | src/utils/validators.py:76-90 | The rewriting relation determines its result: two values that both rewrite the same value are equal, so the contract of `SanitizeValue` pins down its whole output. |
| `Sanitize.SanitisedDictUnique` | src/utils/validators.py:73-94 | Likewise for dicts: the contract of `SanitizeInput` pins down its whole output. |
| `Sanitize.SanitizeString` | src/utils/validators.py:76-80 | The result is clean. It is the longest prefix of at most 1000 characters of the control-filtered string. A string that is already clean is returned as is. |
| `Sanitize.SanitizeKeepsClean` | src/utils/validators.py:73-94 | Sanitising a clean dict returns it unchanged, at every nesting level. |
| `Sanitize.CleanIffFixed` | src/utils/validators.py:73-94 | A dict is a fixed point of `sanitize_input` iff it is clean. |
| `Sanitize.SanitizeIdempotent` | src/utils/validators.py:73-94 | Sanitising twice gives the same result as sanitising once. |
| `Sanitize.ControlPrefixIgnored` | src/utils/validators.py:77-80 | Control characters are removed before the cut to 1000, so a leading run of them changes nothing. |
| `Sanitize.DeleteIsKept` | src/utils/validators.py:78 | Only code points below 32 are removed. DEL (U+007F) survives. |
| `PyStr.StripControl` | src/utils/validators.py:78 | The filtered string has no character below 32 and is no longer than the input. A string without such characters is unchanged. |
| `PyStr.StripControlAppend` | src/utils/validators.py:78 | Filtering distributes over concatenation. |
| `PyStr.StripControlKeepsOthers` | src/utils/validators.py:78 | Every character of code 32 or more keeps its number of occurrences. Control characters occur zero times. |
| `PyStr.StripControlAllControl` | src/utils/validators.py:78 | A string made only of control characters filters to "". |
| `PyStr.Take` | src/utils/validators.py:80 | `s[:n]` is a prefix of `s` of length `min(|s|, n)`. |
| `PyStr.ReplaceChar` | src/utils/validators.py:35 | After `replace("Z", "+00:00")`, no "Z" remains. A string without "Z" is unchanged. |
| `PyStr.ReplaceCharLength` | src/utils/validators.py:35 | Each replaced occurrence adds `|rep| - 1` characters. |
| `PyStr.ReplaceCharAppend` | src/utils/validators.py:35 | Replacement distributes over concatenation. |
| `PyValues.Get` | src/utils/validators.py:100-101 | `d.get(k, default)` is the value stored under `k` when `k` is present, and `default` otherwise. |
| `PyValues.Set` | src/utils/validators.py:106 | After `d[k] = v`, `d[k]` is `v` and every other key's lookup is unchanged. |
| `PyValues.SetAppends` | src/utils/validators.py:106 | Assigning to a key the dict does not have appends the new item at the end. |
| `Response.AssignsError` | src/utils/validators.py:99-108 | The result is the three-key `formatted` record. When the response has an error, `formatted["error"] = response["error"]` has been applied to it. |
| `Response.FormatBlockchainResponse` | src/utils/validators.py:97-108 | The output keys are distinct: `transaction_hash`, `status` and `timestamp`, in that order, then `error` iff the response has one. `transaction_hash` is the response's `hash` or "". `status` is the response's `status` or "pending". `timestamp` is the clock reading. `error` carries the response's value unchanged. |
| `CheckExamples.WidgetAccepted` | src/utils/validators.py:6-22 | The product `{name: "Widget", manufacturer: "M1", batch_number: "BATCH-2024-001"}` is accepted. |
| `CheckExamples.TrailingNewlineAccepted` | src/utils/validators.py:18-19 | "BATCH-2024-001\n" passes, because `$` matches before a final newline. |
| `CheckExamples.ShortBatchRefused` | src/utils/validators.py:18-20 | "BATCH-2024-01" is refused. |
| `CheckExamples.IntegerBatchRaises` | src/utils/validators.py:19 | An integer batch number raises `TypeError`. |
| `CheckExamples.EmptyNameShortCircuits` | src/utils/validators.py:14-19 | An empty name is refused before a bad batch number could raise. |
| `CheckExamples.BatchKeyRefused` | src/utils/validators.py:7-11 | A record keyed `batch` instead of `batch_number` is refused. |
| `CheckExamples.ZuluTimestampNormalised` | src/utils/validators.py:35 | For a date without "Z", the event's verdict on `date + "Z"` is the ISO parser's verdict on `date + "+00:00"`. |
| `CheckExamples.BoolTimestampAccepted` | src/utils/validators.py:36 | `True` is an acceptable timestamp, because `bool` is a subclass of `int`. |
| `CheckExamples.NoneTimestampRefused` | src/utils/validators.py:36-37 | A `None` timestamp is refused. |
| `CheckExamples.UnknownEventTypeRefused` | src/utils/validators.py:46-48 | The event type "lost" is refused. |
| `CheckExamples.NestedValuesKept` | src/utils/validators.py:81-85 | A dict nested as a value is sanitised recursively: its int is kept and its string loses its control character. |

## Left out

- PyRe.IsDigit: Python 3's `\d` on a `str` matches every Unicode decimal digit (category Nd, e.g. Arabic-Indic digits). The model accepts only ASCII '0'..'9', so `BatchPatternIsBatchNumber` and `ValidateProductData` refuse non-ASCII digit strings that Python accepts.
- Validators.ValidateTrackingEvent: the ISO-8601 grammar of `datetime.fromisoformat` is not modelled; it is the parameter `isIso`.
- Response.FormatBlockchainResponse: the clock and ISO formatting of `datetime.utcnow()` are not modelled; the reading is the parameter `now`.
- Python values outside the JSON-like subset are not modelled. In Python, a `str` subclass passes the `isinstance(..., str)` checks at lines 14, 34 and 42, and the sanitiser returns it as a plain `str`. `list` and `dict` subclasses, and dicts with non-string keys, are recursed into and rebuilt by the sanitiser. A tuple, bytes or datetime `batch_number` makes `re.match` raise `TypeError` at line 19, just like the non-string values the model does cover. As a timestamp, such a value fails the check at line 36; the sanitiser passes it through unchanged.
- A dict that contains itself, or one nested deeper than Python's recursion limit, makes `sanitize_input` raise `RecursionError`. The well-founded `Value` datatype can represent neither, so that error is not modelled.
- Floats are represented by a `real`, which has no NaN or infinity. Only their type is ever inspected.
- Strings containing lone surrogates cannot be written as Dafny strings.
- A Python dict never has two equal keys; the model's item lists can have them. No lemma needs distinct keys: `Lookup`, `Get` and `Set` act on the first item with a key, which is the only one in a real dict.
- Passing a non-dict to any of the five functions is not modelled; the parameters are typed as dicts.
- src/blockchain/smart_contract.py: a thin wrapper over web3 and eth_account that does network I/O and library-side signing. It holds no sequencing, retry or status-transition logic.
- src/database/crud.py, src/models/base.py, src/models/supply_chain.py: SQLAlchemy sessions and ORM declarations. Their behaviour lives in the ORM and the database.
- src/ai/predictor.py: TensorFlow and scikit-learn training and inference, with floating-point numerics and file I/O.
- src/api/main.py: FastAPI routing and HTTP error mapping.
- src/utils/logger.py: logging handlers and file rotation.
- src/config/settings.py: configuration from environment variables.
