/**
 * The per-run decision of `check`, free of I/O: given the previous state and
 * each ticket type's freshly filtered list of available dates (in the order
 * of the ticket types), the new state, the types that trigger a
 * notification and the `hasChanges` flag.
 */
module Decision {
  import opened Wrappers
  import opened AssocList
  import opened JsValues

  /** `newAvailableDates`: ticket type to its list of available dates. */
  type Snapshot = Dict<seq<string>>

  datatype Decision = Decision(snapshot: Snapshot, notified: seq<string>, hasChanges: bool)

  const Unchanged := Decision([], [], false)

  /** `readStateFromS3() || {}`: a falsy stored state (including `null` for a missing key) is an empty object. */
  function PreviousState(read: Value): Value
  {
    if Truthy(read) then read else Obj([])
  }

  /** The new list of a ticket type is not `isArrayEqual` to its previous entry. */
  predicate Changed(previous: Value, entry: (string, seq<string>))
  {
    !IsArrayEqual(Member(previous, entry.0), StrArray(entry.1))
  }

  /** One ticket type: store its list, and mark it for notification when it differs from the previous one. */
  function DecideStep(previous: Value, d: Decision, entry: (string, seq<string>)): Decision
  {
    var snapshot := Put(d.snapshot, entry.0, entry.1);
    if Changed(previous, entry) then Decision(snapshot, d.notified + [entry.0], true)
    else d.(snapshot := snapshot)
  }

  /** All ticket types, in order. */
  function Decide(previous: Value, lists: Snapshot): Decision
  {
    if lists == [] then Unchanged
    else
      var n := |lists| - 1;
      DecideStep(previous, Decide(previous, lists[..n]), lists[n])
  }

  /** The new state is the sequence of assignments `newAvailableDates[type] = list`. */
  lemma {:induction false} DecideSnapshot(previous: Value, lists: Snapshot)
    ensures Decide(previous, lists).snapshot == PutAll(lists)
  {
    if lists != [] {
      DecideSnapshot(previous, lists[..|lists| - 1]);
    }
  }

  /** With distinct ticket types the new state has exactly one entry per type, holding that type's list. */
  lemma OneEntryPerType(previous: Value, lists: Snapshot)
    requires NoDup(Keys(lists))
    ensures Keys(Decide(previous, lists).snapshot) == Keys(lists)
    ensures forall i :: 0 <= i < |lists| ==> Lookup(Decide(previous, lists).snapshot, lists[i].0) == Some(lists[i].1)
  {
    DecideSnapshot(previous, lists);
    PutAllKeys(lists);
    DedupOfNoDup(Keys(lists));
    forall i | 0 <= i < |lists|
      ensures Lookup(PutAll(lists), lists[i].0) == Some(lists[i].1)
    {
      assert IsLastAssignment(lists, i, lists[i].0) by {
        forall j | i < j < |lists| ensures lists[j].0 != lists[i].0 {
          assert Keys(lists)[i] != Keys(lists)[j];
        }
      }
      PutAllLookup(lists, i, lists[i].0);
    }
  }

  /** The ticket types whose list changed, in loop order. */
  function ChangedTypes(previous: Value, lists: Snapshot): seq<string>
  {
    if lists == [] then []
    else
      var n := |lists| - 1;
      ChangedTypes(previous, lists[..n]) + if Changed(previous, lists[n]) then [lists[n].0] else []
  }

  /** The loop notifies exactly the changed types, and `hasChanges` says whether there are any. */
  lemma {:induction false} DecideNotified(previous: Value, lists: Snapshot)
    ensures Decide(previous, lists).notified == ChangedTypes(previous, lists)
    ensures Decide(previous, lists).hasChanges <==> ChangedTypes(previous, lists) != []
  {
    if lists != [] {
      DecideNotified(previous, lists[..|lists| - 1]);
    }
  }

  lemma {:induction false} ChangedTypesPrefix(previous: Value, lists: Snapshot, k: nat)
    requires k <= |lists|
    ensures ChangedTypes(previous, lists[..k]) <= ChangedTypes(previous, lists)
    decreases |lists|
  {
    if k < |lists| {
      var front := lists[..|lists| - 1];
      assert front[..k] == lists[..k];
      ChangedTypesPrefix(previous, front, k);
    } else {
      assert lists[..k] == lists;
    }
  }

  lemma {:induction false} ChangedTypesHas(previous: Value, lists: Snapshot, i: nat)
    requires i < |lists| && Changed(previous, lists[i])
    ensures lists[i].0 in ChangedTypes(previous, lists)
    decreases |lists|
  {
    var n := |lists| - 1;
    if i < n {
      var front := lists[..n];
      assert front[i] == lists[i];
      ChangedTypesHas(previous, front, i);
    }
  }

  lemma {:induction false} ChangedTypesOnly(previous: Value, lists: Snapshot, t: string)
    requires t in ChangedTypes(previous, lists)
    ensures exists i :: 0 <= i < |lists| && lists[i].0 == t && Changed(previous, lists[i])
    decreases |lists|
  {
    var n := |lists| - 1;
    var front := lists[..n];
    if t in ChangedTypes(previous, front) {
      ChangedTypesOnly(previous, front, t);
      var i :| 0 <= i < n && front[i].0 == t && Changed(previous, front[i]);
      assert front[i] == lists[i];
    } else {
      assert lists[n].0 == t && Changed(previous, lists[n]);
    }
  }

  /** Notifications are only ever appended, type after type. */
  lemma NotifiedGrows(previous: Value, lists: Snapshot, k: nat)
    requires k <= |lists|
    ensures Decide(previous, lists[..k]).notified <= Decide(previous, lists).notified
  {
    DecideNotified(previous, lists[..k]);
    DecideNotified(previous, lists);
    ChangedTypesPrefix(previous, lists, k);
  }

  /** Every ticket type whose list changed is notified. */
  lemma ChangedIsNotified(previous: Value, lists: Snapshot, i: nat)
    requires i < |lists| && Changed(previous, lists[i])
    ensures lists[i].0 in Decide(previous, lists).notified
  {
    DecideNotified(previous, lists);
    ChangedTypesHas(previous, lists, i);
  }

  /** Only ticket types whose list changed are notified. */
  lemma NotifiedIsChanged(previous: Value, lists: Snapshot, t: string)
    requires t in Decide(previous, lists).notified
    ensures exists i :: 0 <= i < |lists| && lists[i].0 == t && Changed(previous, lists[i])
  {
    DecideNotified(previous, lists);
    ChangedTypesOnly(previous, lists, t);
  }

  /** `hasChanges` is set exactly when some notification is due. */
  lemma HasChangesIffNotified(previous: Value, lists: Snapshot)
    ensures Decide(previous, lists).hasChanges <==> Decide(previous, lists).notified != []
  {
    DecideNotified(previous, lists);
  }

  /** Against an empty previous state every list counts as changed. */
  lemma {:induction false} AllChangedWithoutState(lists: Snapshot)
    ensures ChangedTypes(Obj([]), lists) == Keys(lists)
  {
    if lists != [] {
      var n := |lists| - 1;
      AllChangedWithoutState(lists[..n]);
      KeysPrefix(lists, n);
      assert Member(Obj([]), lists[n].0) == Undefined;
      assert Keys(lists) == Keys(lists)[..n] + [lists[n].0];
    }
  }

  /** Without a previous state (missing, `null` or any falsy value) every ticket type notifies. */
  lemma NoPreviousStateNotifiesAll(read: Value, lists: Snapshot)
    requires !Truthy(read)
    ensures Decide(PreviousState(read), lists).notified == Keys(lists)
    ensures Decide(PreviousState(read), lists).hasChanges <==> lists != []
  {
    DecideNotified(PreviousState(read), lists);
    AllChangedWithoutState(lists);
  }

  // ---------------------------------------------------------------------
  // The saved state read back on the next run.

  /** The state object as `JSON.parse(JSON.stringify(newAvailableDates))` gives it back. */
  function SnapshotValue(snapshot: Snapshot): Value
  {
    Obj(seq(|snapshot|, i requires 0 <= i < |snapshot| => (snapshot[i].0, StrArray(snapshot[i].1))))
  }

  lemma {:induction false} MemberOfSnapshotValue(snapshot: Snapshot, t: string, dates: seq<string>)
    requires Lookup(snapshot, t) == Some(dates)
    ensures Member(SnapshotValue(snapshot), t) == StrArray(dates)
  {
    var v := SnapshotValue(snapshot).fields;
    if snapshot[0].0 != t {
      var rest := snapshot[1..];
      assert Lookup(rest, t) == Some(dates);
      MemberOfSnapshotValue(rest, t, dates);
      assert SnapshotValue(rest).fields == v[1..];
    }
  }

  /** A run that scrapes the same lists as the run that saved the state sends no notification. */
  lemma RerunIsQuiet(previous: Value, lists: Snapshot)
    requires NoDup(Keys(lists))
    ensures Decide(SnapshotValue(Decide(previous, lists).snapshot), lists).notified == []
    ensures !Decide(SnapshotValue(Decide(previous, lists).snapshot), lists).hasChanges
  {
    var saved := SnapshotValue(Decide(previous, lists).snapshot);
    OneEntryPerType(previous, lists);
    forall i | 0 <= i < |lists| ensures !Changed(saved, lists[i]) {
      MemberOfSnapshotValue(Decide(previous, lists).snapshot, lists[i].0, lists[i].1);
      StringListsEqual(lists[i].1, lists[i].1);
    }
    var notified := Decide(saved, lists).notified;
    if notified != [] {
      NotifiedIsChanged(saved, lists, notified[0]);
    }
    HasChangesIffNotified(saved, lists);
  }

  /** One more available date for the `full` ticket notifies for `full`; the same list again does not. */
  lemma NewDateScenario(previous: Value, lists: Snapshot, same: Snapshot)
    requires previous == Obj([("full", StrArray(["01/11/2023"]))])
    requires lists == [("full", ["01/11/2023", "02/11/2023"])]
    requires same == [("full", ["01/11/2023"])]
    ensures Decide(previous, lists) == Decision(lists, ["full"], true)
    ensures Decide(previous, same) == Decision(same, [], false)
  {
    assert Member(previous, "full") == StrArray(["01/11/2023"]);
    StringListsEqual(["01/11/2023"], ["01/11/2023", "02/11/2023"]);
    StringListsEqual(["01/11/2023"], ["01/11/2023"]);
    assert lists[..0] == [] && same[..0] == [];
  }
}
