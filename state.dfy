/**
 * The client's StateManager (src/frontend/js/state.js): one object of named
 * values. `setState` walks the entries of an update object, writes each one
 * whose value differs from what the state holds, and announces the written
 * ones in a `statechange` event whose detail maps each changed key to its old
 * and new value.
 */
module State {
  import opened Json

  /** `{old, new}`: one entry of a `statechange` detail. */
  datatype Change = Change(before: Value, after: Value)

  type Changes = map<string, Change>

  /** An update object as `Object.entries` lists it: its keys, each once, with their values. */
  type Entries = seq<(string, Value)>

  predicate Distinct(updates: Entries)
  {
    forall i, j :: 0 <= i < j < |updates| ==> updates[i].0 != updates[j].0
  }

  function KeysOf(updates: Entries): set<string>
  {
    set i | 0 <= i < |updates| :: updates[i].0
  }

  /** The constructor's state. */
  function Initial(): map<string, Value>
  {
    map["user" := Null, "patients" := Arr([]), "records" := Arr([]), "settings" := Obj(map[])]
  }

  /** The state after the entries of `updates`, in order, each written when it differs. */
  function Applied(state: map<string, Value>, updates: Entries): map<string, Value>
    decreases |updates|
  {
    if updates == [] then state
    else
      var now := Applied(state, updates[..|updates| - 1]);
      var (key, value) := updates[|updates| - 1];
      if Lookup(now, key) != value then now[key := value] else now
  }

  /** The detail built along the way: each written key with the value it replaced and the new value. */
  function Diff(state: map<string, Value>, updates: Entries): Changes
    decreases |updates|
  {
    if updates == [] then map[]
    else
      var now := Applied(state, updates[..|updates| - 1]);
      var changes := Diff(state, updates[..|updates| - 1]);
      var (key, value) := updates[|updates| - 1];
      if Lookup(now, key) != value then changes[key := Change(Lookup(now, key), value)] else changes
  }

  /** Keys an update does not name keep their value and their presence. */
  lemma {:induction false} OtherKeysKept(state: map<string, Value>, updates: Entries, k: string)
    requires k !in KeysOf(updates)
    ensures Lookup(Applied(state, updates), k) == Lookup(state, k)
    ensures k in Applied(state, updates) <==> k in state
    ensures k !in Diff(state, updates)
    decreases |updates|
  {
    if updates != [] {
      var prefix := updates[..|updates| - 1];
      assert KeysOf(prefix) <= KeysOf(updates) by {
        forall x | x in KeysOf(prefix) ensures x in KeysOf(updates) {
          var i :| 0 <= i < |prefix| && prefix[i].0 == x;
          assert updates[i] == prefix[i];
        }
      }
      assert updates[|updates| - 1].0 in KeysOf(updates);
      OtherKeysKept(state, prefix, k);
    }
  }

  /** After an update, every key it names reads as its new value. */
  lemma {:induction false} UpdatedKeysRead(state: map<string, Value>, updates: Entries, i: int)
    requires Distinct(updates) && 0 <= i < |updates|
    ensures Lookup(Applied(state, updates), updates[i].0) == updates[i].1
    decreases |updates|
  {
    var prefix := updates[..|updates| - 1];
    if i < |updates| - 1 {
      assert prefix[i] == updates[i];
      UpdatedKeysRead(state, prefix, i);
      assert updates[|updates| - 1].0 != updates[i].0;
    }
  }

  /** The last entry's key is not written or recorded before it, so it is compared with the original state. */
  lemma LastComparedWithOriginal(state: map<string, Value>, updates: Entries)
    requires Distinct(updates) && updates != []
    ensures Lookup(Applied(state, updates[..|updates| - 1]), updates[|updates| - 1].0)
            == Lookup(state, updates[|updates| - 1].0)
    ensures updates[|updates| - 1].0 !in Diff(state, updates[..|updates| - 1])
  {
    OtherKeysKept(state, updates[..|updates| - 1], updates[|updates| - 1].0);
  }

  /** The detail names only keys of the update. */
  lemma {:induction false} DiffWithinUpdate(state: map<string, Value>, updates: Entries)
    ensures forall k :: k in Diff(state, updates) ==> k in KeysOf(updates)
    decreases |updates|
  {
    if updates != [] {
      var prefix := updates[..|updates| - 1];
      var last := |updates| - 1;
      DiffWithinUpdate(state, prefix);
      forall k | k in Diff(state, updates) ensures k in KeysOf(updates) {
        if k != updates[last].0 {
          assert k in Diff(state, prefix);
          assert k in KeysOf(prefix);
          var i :| 0 <= i < |prefix| && prefix[i].0 == k;
          assert updates[i] == prefix[i];
        } else {
          assert updates[last].0 in KeysOf(updates);
        }
      }
    }
  }

  /**
   * A key of the update is in the detail exactly when its new value differs
   * from the original state, and then with the original value and the new one.
   */
  lemma {:induction false} DiffExact(state: map<string, Value>, updates: Entries)
    requires Distinct(updates)
    ensures forall i :: 0 <= i < |updates| ==>
              (updates[i].0 in Diff(state, updates) <==> updates[i].1 != Lookup(state, updates[i].0))
    ensures forall i :: 0 <= i < |updates| && updates[i].0 in Diff(state, updates) ==>
              Diff(state, updates)[updates[i].0] == Change(Lookup(state, updates[i].0), updates[i].1)
    decreases |updates|
  {
    if updates != [] {
      var prefix := updates[..|updates| - 1];
      var last := |updates| - 1;
      assert Distinct(prefix);
      DiffExact(state, prefix);
      LastComparedWithOriginal(state, updates);
      forall i | 0 <= i < last
        ensures (updates[i].0 in Diff(state, updates) <==> updates[i].1 != Lookup(state, updates[i].0))
        ensures updates[i].0 in Diff(state, updates) ==>
                  Diff(state, updates)[updates[i].0] == Change(Lookup(state, updates[i].0), updates[i].1)
      {
        assert prefix[i] == updates[i];
        assert updates[i].0 != updates[last].0;
      }
    }
  }

  /** An update whose every entry already holds writes nothing and records nothing. */
  lemma {:induction false} NothingToWrite(state: map<string, Value>, updates: Entries)
    requires forall i :: 0 <= i < |updates| ==> updates[i].1 == Lookup(state, updates[i].0)
    ensures Applied(state, updates) == state
    ensures Diff(state, updates) == map[]
    decreases |updates|
  {
    if updates != [] {
      var prefix := updates[..|updates| - 1];
      forall i | 0 <= i < |prefix| ensures prefix[i].1 == Lookup(state, prefix[i].0) {
        assert prefix[i] == updates[i];
      }
      NothingToWrite(state, prefix);
    }
  }

  /** Repeating an update changes nothing and announces nothing. */
  lemma Idempotent(state: map<string, Value>, updates: Entries)
    requires Distinct(updates)
    ensures Applied(Applied(state, updates), updates) == Applied(state, updates)
    ensures Diff(Applied(state, updates), updates) == map[]
  {
    forall i | 0 <= i < |updates| ensures updates[i].1 == Lookup(Applied(state, updates), updates[i].0) {
      UpdatedKeysRead(state, updates, i);
    }
    NothingToWrite(Applied(state, updates), updates);
  }

  class StateManager {
    var state: map<string, Value>
    /** The detail of every `statechange` event dispatched, in order. */
    var events: seq<Changes>

    constructor ()
      ensures state == Initial() && events == []
    {
      state := Initial();
      events := [];
    }

    /**
     * `setState(updates)`, with `updates` given as its entries: the state
     * becomes Applied, and one event carrying Diff is dispatched exactly when
     * Diff is not empty.
     */
    method SetState(updates: Entries)
      requires Distinct(updates)
      modifies this
      ensures state == Applied(old(state), updates)
      ensures |Diff(old(state), updates)| > 0 ==> events == old(events) + [Diff(old(state), updates)]
      ensures |Diff(old(state), updates)| == 0 ==> events == old(events)
    {
      var changes: Changes := map[];
      for i := 0 to |updates|
        invariant state == Applied(old(state), updates[..i])
        invariant changes == Diff(old(state), updates[..i])
        invariant events == old(events)
      {
        assert updates[..i + 1][..i] == updates[..i];
        var (key, value) := updates[i];
        if Lookup(state, key) != value {
          changes := changes[key := Change(Lookup(state, key), value)];
          state := state[key := value];
        }
      }
      assert updates[..|updates|] == updates;
      if |changes| > 0 {
        events := events + [changes];
      }
    }

    /** `getState(key)`: a falsy key (or none) answers the whole state; any other key names one entry. */
    function GetState(key: Value): (r: Value)
      reads this
      ensures !Truthy(key) ==> r == Obj(state)
      ensures key.Str? && key.s != "" ==> r == Lookup(state, key.s)
    {
      if Truthy(key) then Lookup(state, ToString(key)) else Obj(state)
    }
  }
}
