/** The ingestion step of `loadData` in frontend/src/components/FlightMap.tsx:
    every record with a truthy icao24, latitude and longitude is `set` into a
    JavaScript Map keyed by icao24, and the map's values become the flight list.
    A Map keeps a key's first insertion slot when the key is set again, so the
    result holds the last qualifying record of every key, ordered by the first
    qualifying occurrence of the key. */
module FlightMapIngest {
  import opened Options
  import opened FlightData

  /** `f.icao24 && f.latitude && f.longitude`. */
  predicate Eligible(f: Flight)
  {
    f.icao24 != "" && TruthyNum(f.latitude) && TruthyNum(f.longitude)
  }

  /** `f` is a record that the loop stores under key `k`. */
  predicate EntryFor(f: Flight, k: string)
  {
    Eligible(f) && f.icao24 == k
  }

  /** `data[j]` is stored, and no later record is stored under its key. */
  predicate IsLastEntry(data: seq<Flight>, j: int)
  {
    0 <= j < |data| && Eligible(data[j]) &&
    forall j' :: j < j' < |data| ==> !EntryFor(data[j'], data[j].icao24)
  }

  /** The keys of a flight list, in order. */
  function KeysOf(flights: seq<Flight>): (keys: seq<string>)
    ensures |keys| == |flights|
    ensures forall i :: 0 <= i < |flights| ==> keys[i] == flights[i].icao24
  {
    seq(|flights|, i requires 0 <= i < |flights| => flights[i].icao24)
  }

  /** Index of the first record stored under `k`, or -1 if there is none. */
  function FirstIndexOf(data: seq<Flight>, k: string): (r: int)
    ensures -1 <= r < |data|
    ensures r >= 0 ==> EntryFor(data[r], k)
    ensures forall j :: 0 <= j < |data| && (r < 0 || j < r) ==> !EntryFor(data[j], k)
  {
    if data == [] then -1
    else
      var r := FirstIndexOf(data[..|data| - 1], k);
      if r >= 0 then r
      else if EntryFor(data[|data| - 1], k) then |data| - 1
      else -1
  }

  /** Index of the last record stored under `k`, or -1 if there is none. */
  function LastIndexOf(data: seq<Flight>, k: string): (r: int)
    ensures -1 <= r < |data|
    ensures r >= 0 ==> EntryFor(data[r], k)
    ensures forall j :: r < j < |data| ==> !EntryFor(data[j], k)
  {
    if data == [] then -1
    else if EntryFor(data[|data| - 1], k) then |data| - 1
    else LastIndexOf(data[..|data| - 1], k)
  }

  // ---------------------------------------------------------------------------
  // The Map after the loop has seen `data`: its keys in slot order, and its
  // key-to-value table.

  /** The Map's key slots after `set` has been called for every eligible record. */
  function SlotOrder(data: seq<Flight>): seq<string>
  {
    if data == [] then []
    else
      var keys := SlotOrder(data[..|data| - 1]);
      var f := data[|data| - 1];
      if Eligible(f) && f.icao24 !in keys then keys + [f.icao24] else keys
  }

  /** The Map's table after `set` has been called for every eligible record. */
  function Table(data: seq<Flight>): map<string, Flight>
  {
    if data == [] then map[]
    else
      var m := Table(data[..|data| - 1]);
      var f := data[|data| - 1];
      if Eligible(f) then m[f.icao24 := f] else m
  }

  /** The slots are the keys with a stored record, ordered by first occurrence. */
  lemma {:induction false} SlotOrderSpec(data: seq<Flight>)
    ensures var keys := SlotOrder(data);
      (forall k :: k in keys <==> FirstIndexOf(data, k) >= 0) &&
      (forall i, i' :: 0 <= i < i' < |keys| ==> FirstIndexOf(data, keys[i]) < FirstIndexOf(data, keys[i']))
  {
    if data != [] {
      var pre := data[..|data| - 1];
      var f := data[|data| - 1];
      SlotOrderSpec(pre);
      var old_keys := SlotOrder(pre);
      var keys := SlotOrder(data);
      forall k ensures FirstIndexOf(pre, k) >= 0 ==> FirstIndexOf(data, k) == FirstIndexOf(pre, k) {
      }
      if Eligible(f) && f.icao24 !in old_keys {
        assert FirstIndexOf(pre, f.icao24) < 0;
        assert FirstIndexOf(data, f.icao24) == |pre|;
        assert keys == old_keys + [f.icao24];
        forall i, i' | 0 <= i < i' < |keys|
          ensures FirstIndexOf(data, keys[i]) < FirstIndexOf(data, keys[i'])
        {
          assert keys[i] == old_keys[i];
          if i' < |old_keys| {
            assert keys[i'] == old_keys[i'];
          }
        }
      } else {
        assert keys == old_keys;
      }
    }
  }

  /** The table holds, for every key with a stored record, the last one. */
  lemma {:induction false} TableSpec(data: seq<Flight>)
    ensures forall k :: k in Table(data) <==> LastIndexOf(data, k) >= 0
    ensures forall k :: k in Table(data) ==> Table(data)[k] == data[LastIndexOf(data, k)]
  {
    if data != [] {
      var pre := data[..|data| - 1];
      TableSpec(pre);
      forall k ensures k in Table(data) <==> LastIndexOf(data, k) >= 0 {
        if !EntryFor(data[|data| - 1], k) {
          assert LastIndexOf(data, k) == LastIndexOf(pre, k);
        }
      }
    }
  }

  /** A key has a first stored record exactly when it has a last one. */
  lemma FirstLastAgree(data: seq<Flight>, k: string)
    ensures FirstIndexOf(data, k) >= 0 <==> LastIndexOf(data, k) >= 0
  {
  }

  /** A key has a slot exactly when the table holds a record for it. */
  lemma SlotsAreTableKeys(data: seq<Flight>)
    ensures forall k :: k in SlotOrder(data) <==> k in Table(data)
  {
    SlotOrderSpec(data);
    TableSpec(data);
    forall k ensures k in SlotOrder(data) <==> k in Table(data) {
      FirstLastAgree(data, k);
    }
  }

  /** `Array.from(uniqueFlights.values())`: the stored records in slot order. */
  function Deduplicated(data: seq<Flight>): (out: seq<Flight>)
    ensures KeysOf(out) == SlotOrder(data)
    ensures forall i :: 0 <= i < |out| ==>
      LastIndexOf(data, out[i].icao24) >= 0 && out[i] == data[LastIndexOf(data, out[i].icao24)]
  {
    var keys := SlotOrder(data);
    SlotsAreTableKeys(data);
    TableSpec(data);
    seq(|keys|, i requires 0 <= i < |keys| => Table(data)[keys[i]])
  }

  /** What the flight list of the map holds after a load of `data`. */
  lemma {:induction false} DeduplicatedSpec(data: seq<Flight>)
    ensures var out := Deduplicated(data);
      // every shown record is eligible
      (forall i :: 0 <= i < |out| ==> Eligible(out[i])) &&
      // at most one record per icao24
      (forall i, j :: 0 <= i < j < |out| ==> out[i].icao24 != out[j].icao24) &&
      // ... and it is the key's last eligible occurrence
      (forall i :: 0 <= i < |out| ==> exists j :: IsLastEntry(data, j) && out[i] == data[j]) &&
      // every eligible record's key is shown
      (forall j :: 0 <= j < |data| && Eligible(data[j]) ==> data[j].icao24 in KeysOf(out)) &&
      // keys appear in the order of their first eligible occurrence
      (forall i, i' :: 0 <= i < i' < |out| ==>
          FirstIndexOf(data, out[i].icao24) < FirstIndexOf(data, out[i'].icao24))
  {
    var out := Deduplicated(data);
    SlotOrderSpec(data);
    var keys := KeysOf(out);
    forall i | 0 <= i < |out| ensures Eligible(out[i]) && FirstIndexOf(data, out[i].icao24) >= 0 {
      assert keys[i] in SlotOrder(data);
      FirstLastAgree(data, out[i].icao24);
    }
    forall i | 0 <= i < |out|
      ensures exists j :: IsLastEntry(data, j) && out[i] == data[j]
    {
      FirstLastAgree(data, out[i].icao24);
      var j := LastIndexOf(data, out[i].icao24);
      assert out[i] == data[j];
    }
    forall j | 0 <= j < |data| && Eligible(data[j]) ensures data[j].icao24 in keys {
      assert EntryFor(data[j], data[j].icao24);
    }
    forall i, i' | 0 <= i < i' < |out|
      ensures FirstIndexOf(data, out[i].icao24) < FirstIndexOf(data, out[i'].icao24)
    {
      assert keys[i] == out[i].icao24 && keys[i'] == out[i'].icao24;
    }
  }

  /** No load shows more flights than the batch held. */
  lemma {:induction false} DeduplicatedLength(data: seq<Flight>)
    ensures |Deduplicated(data)| <= |data|
  {
    SlotOrderLength(data);
  }

  lemma {:induction false} SlotOrderLength(data: seq<Flight>)
    ensures |SlotOrder(data)| <= |data|
  {
    if data != [] {
      SlotOrderLength(data[..|data| - 1]);
    }
  }

  /** The `forEach` loop over the batch followed by `Array.from(values())`.
      `order` is the Map's slot sequence and `table` its contents. */
  method Deduplicate(data: seq<Flight>) returns (out: seq<Flight>)
    ensures out == Deduplicated(data)
  {
    var order: seq<string> := [];
    var table: map<string, Flight> := map[];
    var n := 0;
    while n < |data|
      invariant 0 <= n <= |data|
      invariant order == SlotOrder(data[..n])
      invariant table == Table(data[..n])
    {
      var f := data[n];
      assert data[..n + 1][..n] == data[..n];
      if Eligible(f) {
        SlotsAreTableKeys(data[..n]);
        if f.icao24 !in table {
          order := order + [f.icao24];
        }
        table := table[f.icao24 := f];
      }
      n := n + 1;
    }
    assert data[..n] == data;
    SlotsAreTableKeys(data);
    out := [];
    var i := 0;
    while i < |order|
      invariant 0 <= i <= |order|
      invariant |out| == i
      invariant forall j :: 0 <= j < i ==> out[j] == table[order[j]]
    {
      assert order[i] in table;
      out := out + [table[order[i]]];
      i := i + 1;
    }
    assert |out| == |Deduplicated(data)|;
  }
}
