/**
 The slot store: chunked upserts into the energy_data table, where the last write to a cell
 wins. A chunk is one atomic batch, and the database may refuse any chunk.
 */
module Store {
  import opened Outcomes

  datatype SlotKey = SlotKey(tenant: string, ec: string, meter: string, code: string, ts: int)

  datatype Reading = Reading(value: real, qov: int)

  datatype Slot = Slot(key: SlotKey, reading: Reading)

  type EnergyData = map<SlotKey, Reading>

  // The statements of the slots, one after the other.
  function ApplyAll(t: EnergyData, slots: seq<Slot>): EnergyData {
    if slots == [] then t else
    var last := slots[|slots| - 1];
    ApplyAll(t, slots[..|slots| - 1])[last.key := last.reading]
  }

  // The last delivered reading of a cell.
  function LastFor(slots: seq<Slot>, k: SlotKey): Option<Reading> {
    if slots == [] then None
    else if slots[|slots| - 1].key == k then Some(slots[|slots| - 1].reading)
    else LastFor(slots[..|slots| - 1], k)
  }

  // Last write wins, and cells that were not delivered are not touched.
  lemma {:induction false} LastWriteWins(t: EnergyData, slots: seq<Slot>, k: SlotKey)
    ensures var u, last := ApplyAll(t, slots), LastFor(slots, k);
            if last.Some? then k in u && u[k] == last.value
            else (k in u <==> k in t) && (k in t ==> u[k] == t[k])
  {
    if slots != [] {
      LastWriteWins(t, slots[..|slots| - 1], k);
    }
  }

  lemma {:induction false} ApplyConcat(t: EnergyData, a: seq<Slot>, b: seq<Slot>)
    ensures ApplyAll(t, a + b) == ApplyAll(ApplyAll(t, a), b)
  {
    if b == [] {
      assert a + b == a;
    } else {
      var n := |b| - 1;
      ApplyConcat(t, a, b[..n]);
      assert (a + b)[..|a + b| - 1] == a + b[..n];
    }
  }

  // What a table looks like after a message depends on the table before only in other cells.
  lemma {:induction false} SameOutside(t: EnergyData, u: EnergyData, slots: seq<Slot>)
    requires forall k :: LastFor(slots, k).None? ==> (k in t <==> k in u) && (k in t ==> t[k] == u[k])
    ensures ApplyAll(t, slots) == ApplyAll(u, slots)
  {
    var x, y := ApplyAll(t, slots), ApplyAll(u, slots);
    forall k ensures (k in x <==> k in y) && (k in x ==> x[k] == y[k]) {
      LastWriteWins(t, slots, k);
      LastWriteWins(u, slots, k);
    }
    assert x.Keys == y.Keys;
  }

  lemma {:induction false} PrefixDelivers(slots: seq<Slot>, n: nat, k: SlotKey)
    requires n <= |slots| && LastFor(slots, k).None?
    ensures LastFor(slots[..n], k).None?
  {
    if n < |slots| {
      PrefixDelivers(slots[..|slots| - 1], n, k);
      assert slots[..|slots| - 1][..n] == slots[..n];
    } else {
      assert slots[..n] == slots;
    }
  }

  // Replaying a message after a failed attempt is delivering it once.
  lemma {:induction false} ReplayAfterPrefix(t: EnergyData, slots: seq<Slot>, n: nat)
    requires n <= |slots|
    ensures ApplyAll(ApplyAll(t, slots[..n]), slots) == ApplyAll(t, slots)
  {
    var u := ApplyAll(t, slots[..n]);
    forall k | LastFor(slots, k).None? ensures (k in u <==> k in t) && (k in t ==> u[k] == t[k]) {
      PrefixDelivers(slots, n, k);
      LastWriteWins(t, slots[..n], k);
    }
    SameOutside(u, t, slots);
  }

  // Any number of failed attempts, each stopped after its own prefix.
  function Attempts(t: EnergyData, slots: seq<Slot>, stops: seq<nat>): EnergyData
    requires forall i :: 0 <= i < |stops| ==> stops[i] <= |slots|
  {
    if stops == [] then t
    else ApplyAll(Attempts(t, slots, stops[..|stops| - 1]), slots[..stops[|stops| - 1]])
  }

  lemma {:induction false} ReplayAfterAttempts(t: EnergyData, slots: seq<Slot>, stops: seq<nat>)
    requires forall i :: 0 <= i < |stops| ==> stops[i] <= |slots|
    ensures ApplyAll(Attempts(t, slots, stops), slots) == ApplyAll(t, slots)
  {
    if stops != [] {
      var m := |stops| - 1;
      ReplayAfterPrefix(Attempts(t, slots, stops[..m]), slots, stops[m]);
      ReplayAfterAttempts(t, slots, stops[..m]);
    }
  }

  class Store {
    var table: EnergyData

    constructor ()
      ensures table == map[]
    {
      table := map[];
    }

    // One batch: all of its statements, or none when the database refuses it.
    method UpsertChunk(slots: seq<Slot>, refused: bool) returns (ok: bool)
      modifies this
      ensures ok == !refused
      ensures table == if ok then ApplyAll(old(table), slots) else old(table)
    {
      if refused {
        return false;
      }
      for i := 0 to |slots|
        invariant table == ApplyAll(old(table), slots[..i])
      {
        assert slots[..i + 1][..i] == slots[..i];
        table := table[slots[i].key := slots[i].reading];
      }
      assert slots[..|slots|] == slots;
      return true;
    }

    // Chunk by chunk; `refusals` are the chunks the database refuses, counted from 0. A refused
    // chunk ends the call, and what was written before it stays.
    method UpsertSlots(slots: seq<Slot>, refusals: set<nat>) returns (ok: bool, ghost written: nat)
      modifies this
      ensures written <= |slots| && table == ApplyAll(old(table), slots[..written])
      ensures ok ==> table == ApplyAll(old(table), slots)
      ensures !ok ==> written % 1000 == 0 && written / 1000 in refusals
      ensures !ok ==> written < |slots| && forall c :: c in refusals ==> written <= c * 1000
      ensures ok ==> forall c :: c in refusals ==> |slots| <= c * 1000
    {
      written := 0;
      if |slots| == 0 {
        return true, 0;
      }
      var offset := 0;
      while offset < |slots|
        invariant 0 <= offset && offset % 1000 == 0
        invariant written == if offset < |slots| then offset else |slots|
        invariant table == ApplyAll(old(table), slots[..written])
        invariant forall c: nat :: c in refusals ==> offset <= c * 1000
      {
        var end := if offset + 1000 < |slots| then offset + 1000 else |slots|;
        var done := UpsertChunk(slots[offset..end], offset / 1000 in refusals);
        if !done {
          return false, written;
        }
        ApplyConcat(old(table), slots[..offset], slots[offset..end]);
        assert slots[..offset] + slots[offset..end] == slots[..end];
        written := end;
        offset := offset + 1000;
      }
      assert slots[..|slots|] == slots;
      return true, written;
    }
  }
}
