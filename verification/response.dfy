/**
 `format_blockchain_response` (src/utils/validators.py:97-108): the record the
 API returns for a ledger call. The wall-clock reading
 `datetime.utcnow().isoformat()` is the parameter `now`.
 */
module Response {
  import opened Wrappers
  import opened PyValues

  /** The value `d.get(k)` would give, or `default` when the key is absent. */
  predicate CopiedOr(out: Dict, outKey: string, resp: Dict, respKey: string, default: Value)
  {
    && (HasKey(resp, respKey) ==> Lookup(out, outKey) == Lookup(resp, respKey))
    && (!HasKey(resp, respKey) ==> Lookup(out, outKey) == Some(default))
  }

  /** The three-key dict `formatted` of lines 99-103. */
  function Formatted(resp: Dict, now: string): Dict
  {
    [ ("transaction_hash", Get(resp, "hash", VStr(""))),
      ("status", Get(resp, "status", VStr("pending"))),
      ("timestamp", VStr(now)) ]
  }

  function FormatBlockchainResponse(resp: Dict, now: string): (r: Dict)
    ensures UniqueKeys(r)
    ensures |r| == if HasKey(resp, "error") then 4 else 3
    ensures r[0].0 == "transaction_hash" && r[1].0 == "status" && r[2].0 == "timestamp"
    ensures CopiedOr(r, "transaction_hash", resp, "hash", VStr(""))
    ensures CopiedOr(r, "status", resp, "status", VStr("pending"))
    ensures Lookup(r, "timestamp") == Some(VStr(now))
    ensures HasKey(r, "error") <==> HasKey(resp, "error")
    ensures HasKey(resp, "error") ==> Lookup(r, "error") == Lookup(resp, "error")
  {
    var f := Formatted(resp, now);
    // `formatted["error"] = ...` appends, as AssignsError shows
    var tail := if HasKey(resp, "error") then [("error", Lookup(resp, "error").value)] else [];
    FormattedLookups(f[0].1, f[1].1, f[2].1, tail);
    FormattedUniqueKeys(f[0].1, f[1].1, f[2].1, tail);
    f + tail
  }

  /** The result is `formatted`, with `formatted["error"] = response["error"]`
      applied exactly when the response has an error. */
  lemma AssignsError(resp: Dict, now: string)
    ensures !HasKey(resp, "error") ==> FormatBlockchainResponse(resp, now) == Formatted(resp, now)
    ensures HasKey(resp, "error") ==>
      FormatBlockchainResponse(resp, now) == Set(Formatted(resp, now), "error", Lookup(resp, "error").value)
  {
    var f := Formatted(resp, now);
    FormattedLookups(f[0].1, f[1].1, f[2].1, []);
    assert f + [] == f;
    if HasKey(resp, "error") {
      SetAppends(f, "error", Lookup(resp, "error").value);
    }
  }

  /** Lookups in a record whose first three keys are the fixed ones. */
  lemma FormattedLookups(hash: Value, status: Value, stamp: Value, tail: Dict)
    ensures var r := [("transaction_hash", hash), ("status", status), ("timestamp", stamp)] + tail;
      && Lookup(r, "transaction_hash") == Some(hash)
      && Lookup(r, "status") == Some(status)
      && Lookup(r, "timestamp") == Some(stamp)
      && Lookup(r, "error") == Lookup(tail, "error")
  {
    var r3 := [("timestamp", stamp)] + tail;
    var r2 := [("status", status)] + r3;
    assert [("transaction_hash", hash)] + r2
        == [("transaction_hash", hash), ("status", status), ("timestamp", stamp)] + tail;
    LookupCons(("timestamp", stamp), tail, "error");
    LookupCons(("status", status), r3, "timestamp");
    LookupCons(("status", status), r3, "error");
    LookupCons(("transaction_hash", hash), r2, "status");
    LookupCons(("transaction_hash", hash), r2, "timestamp");
    LookupCons(("transaction_hash", hash), r2, "error");
  }

  /** The fixed keys and an optional "error" key are pairwise distinct. */
  lemma FormattedUniqueKeys(hash: Value, status: Value, stamp: Value, tail: Dict)
    requires |tail| <= 1
    requires forall i | 0 <= i < |tail| :: tail[i].0 == "error"
    ensures UniqueKeys([("transaction_hash", hash), ("status", status), ("timestamp", stamp)] + tail)
  {
  }
}
