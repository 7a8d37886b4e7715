/**
 * The exchange-rate updater: it builds rates from the Central Bank of
 * Russia's daily list, and it persists them in one JSON record together
 * with a "timestamp" entry.
 *
 * The HTTP request and the XML parse are outside the model: a `Response`
 * carries their outcome, with each `<Valute>` entry already parsed into
 * its code, nominal and value. The JSON file is the `file` field of a
 * `RateStore`, and the clock is a timestamp argument.
 */
module Exchange {
  import opened Wrappers

  /** A JSON value the record can hold: a rate or the ISO timestamp. */
  datatype Json = JNum(num: real) | JStr(str: string)

  /** The decoded contents of exchange_rates.json. */
  type Record = map<string, Json>

  /** One `<Valute>` of the daily list. */
  datatype Valute = Valute(code: string, nominal: real, value: real)

  /** What the request produced: a network failure, or an HTTP status with the
      parsed entries (`None` when the XML or one of its fields could not be
      parsed). */
  datatype Response = NetworkError | Reply(status: int, valutes: Option<seq<Valute>>)

  const TimestampKey: string := "timestamp"

  /** The key a rate is stored under: `f"{code}_RUB"`. */
  function RateKey(v: Valute): string {
    v.code + "_RUB"
  }

  /** `fetch_cbr_rates`: `None` for a network error, a status other than 200,
      a parse error, or a zero nominal (the division raises and the catch-all
      handler returns `None`); otherwise every entry's `value / nominal` under
      its key, a later entry with the same key overwriting an earlier one. */
  method FetchCbrRates(resp: Response) returns (r: Option<map<string, real>>)
    ensures (resp.NetworkError? || resp.status != 200 || resp.valutes.None?) ==> r == None
    ensures resp.Reply? && resp.status == 200 && resp.valutes.Some? ==>
      var vs := resp.valutes.value;
      && (r.None? <==> exists i :: 0 <= i < |vs| && vs[i].nominal == 0.0)
      && (r.Some? ==> forall k :: k in r.value <==> exists i :: 0 <= i < |vs| && RateKey(vs[i]) == k)
      && (r.Some? ==> forall i :: 0 <= i < |vs| && (forall j :: i < j < |vs| ==> RateKey(vs[j]) != RateKey(vs[i])) ==>
            r.value[RateKey(vs[i])] == vs[i].value / vs[i].nominal)
  {
    if resp.NetworkError? || resp.status != 200 || resp.valutes.None? {
      return None;
    }
    var vs := resp.valutes.value;
    var rates: map<string, real> := map[];
    for n := 0 to |vs|
      invariant forall j :: 0 <= j < n ==> vs[j].nominal != 0.0
      invariant forall k :: k in rates <==> exists j :: 0 <= j < n && RateKey(vs[j]) == k
      invariant forall j :: 0 <= j < n && (forall l :: j < l < n ==> RateKey(vs[l]) != RateKey(vs[j])) ==>
        rates[RateKey(vs[j])] == vs[j].value / vs[j].nominal
    {
      var v := vs[n];
      if v.nominal == 0.0 {
        return None;
      }
      rates := rates[RateKey(v) := v.value / v.nominal];
    }
    return Some(rates);
  }

  /** The rates as the JSON numbers `json.dump` writes. */
  function Numbers(rates: map<string, real>): Record {
    map k | k in rates :: JNum(rates[k])
  }

  /** The record `save_rates` writes: `{"timestamp": now, **rates}`. A rate
      named "timestamp" would win over the clock value, as it does in the
      dict display. */
  function RecordOf(rates: Record, now: string): Record {
    map[TimestampKey := JStr(now)] + rates
  }

  /** What `load_existing_rates` returns for a record: the record with its
      "timestamp" entry popped. */
  function WithoutTimestamp(rec: Record): Record {
    rec - {TimestampKey}
  }

  /** `update_rates`: what it returns and what the file holds afterwards. */
  datatype Update = Update(returned: Option<Record>, file: Option<Record>)

  /** The update policy: there is no staleness check, a fetch is always
      attempted. A failed fetch with nothing stored writes nothing; a failed
      fetch with stored rates re-saves them under a new timestamp; a
      successful fetch replaces the record. */
  function UpdatePolicy(file: Option<Record>, fetched: Option<map<string, real>>, now: string): Update {
    var existing := if file.Some? then Some(WithoutTimestamp(file.value)) else None;
    match fetched
    case None =>
      if existing.None? then Update(None, file)
      else Update(existing, Some(RecordOf(existing.value, now)))
    case Some(delivered) => Update(Some(Numbers(delivered)), Some(RecordOf(Numbers(delivered), now)))
  }

  /** The persisted JSON file and the three file operations of the updater. */
  class RateStore {
    /** exchange_rates.json; `None` while the file does not exist. */
    var file: Option<Record>

    constructor (initial: Option<Record>)
      ensures file == initial
    {
      file := initial;
    }

    /** `save_rates`: refuses `None`; otherwise overwrites the file. */
    method SaveRates(rates: Option<Record>, now: string) returns (ok: bool)
      modifies this
      ensures ok <==> rates.Some?
      ensures file == if rates.Some? then Some(RecordOf(rates.value, now)) else old(file)
    {
      if rates.None? {
        return false;
      }
      file := Some(RecordOf(rates.value, now));
      return true;
    }

    /** `load_existing_rates`: `None` when there is no file. */
    method LoadExistingRates() returns (r: Option<Record>)
      ensures file.None? ==> r == None
      ensures file.Some? ==> r == Some(file.value - {TimestampKey})
    {
      if file.None? {
        return None;
      }
      var data := file.value;
      data := data - {TimestampKey};
      return Some(data);
    }

    /** `update_rates`, with the result of `fetch_cbr_rates` and the clock
        passed in. */
    method UpdateRates(fetched: Option<map<string, real>>, now: string) returns (r: Option<Record>)
      modifies this
      ensures Update(r, file) == UpdatePolicy(old(file), fetched, now)
    {
      var existing := LoadExistingRates();
      if fetched.None? {
        if existing.None? {
          return None;
        }
        var _ := SaveRates(existing, now);
        return existing;
      }
      var saved := Numbers(fetched.value);
      var _ := SaveRates(Some(saved), now);
      return Some(saved);
    }
  }

  // ---------------------------------------------------------------------
  // Properties of the record and the policy
  // ---------------------------------------------------------------------

  /** The saved record is the rates plus exactly one "timestamp" key, which
      holds the clock value unless a rate already took that name. */
  lemma RecordShape(rates: Record, now: string)
    ensures RecordOf(rates, now).Keys == rates.Keys + {TimestampKey}
    ensures TimestampKey !in rates ==> RecordOf(rates, now)[TimestampKey] == JStr(now)
    ensures forall k :: k in rates ==> RecordOf(rates, now)[k] == rates[k]
  {
  }

  /** Loading after saving gives back the saved rates, provided no rate key is
      named "timestamp". */
  lemma LoadAfterSave(rates: Record, now: string)
    requires TimestampKey !in rates
    ensures WithoutTimestamp(RecordOf(rates, now)) == rates
  {
    assert WithoutTimestamp(RecordOf(rates, now)).Keys == rates.Keys;
  }

  /** Entries of the daily list always leave the clock value in place. */
  lemma RateKeyIsNotTimestamp(v: Valute)
    ensures RateKey(v) != TimestampKey
  {
    var k := RateKey(v);
    assert k[|k| - 1] == 'B';
  }

  /** A failed fetch with nothing stored returns `None` and writes nothing. */
  lemma UpdateFailsWithoutStore(fetched: Option<map<string, real>>, now: string)
    requires fetched.None?
    ensures UpdatePolicy(None, fetched, now) == Update(None, None)
  {
  }

  /** A failed fetch with stored rates serves those rates and re-saves them
      unchanged, only the timestamp being new. */
  lemma UpdateFallsBackToStore(rec: Record, now: string)
    ensures var u := UpdatePolicy(Some(rec), None, now);
      && u.returned == Some(WithoutTimestamp(rec))
      && u.file.Some? && WithoutTimestamp(u.file.value) == WithoutTimestamp(rec)
      && u.file.value[TimestampKey] == JStr(now)
  {
    LoadAfterSave(WithoutTimestamp(rec), now);
  }

  /** A successful fetch replaces the record wholesale: an old rate the fetch
      did not deliver is gone, and every delivered rate is stored unchanged. */
  lemma UpdateReplacesWholesale(file: Option<Record>, delivered: map<string, real>, now: string)
    requires TimestampKey !in delivered
    ensures var u := UpdatePolicy(file, Some(delivered), now);
      && u.returned == Some(Numbers(delivered))
      && u.file.Some? && WithoutTimestamp(u.file.value) == Numbers(delivered)
      && (forall k :: k != TimestampKey && k !in delivered ==> k !in u.file.value)
      && u.file.value[TimestampKey] == JStr(now)
  {
    LoadAfterSave(Numbers(delivered), now);
  }

  /** Whatever the outcome, when a record is written the rates it holds are
      the rates returned. */
  lemma UpdateReturnsWhatItStores(file: Option<Record>, fetched: Option<map<string, real>>, now: string)
    requires fetched.Some? ==> TimestampKey !in fetched.value
    ensures var u := UpdatePolicy(file, fetched, now);
      (u.returned.None? <==> (fetched.None? && file.None?)) &&
      (u.returned.Some? ==> u.file.Some? && WithoutTimestamp(u.file.value) == u.returned.value)
  {
    var u := UpdatePolicy(file, fetched, now);
    if u.returned.Some? {
      LoadAfterSave(u.returned.value, now);
    }
  }
}
