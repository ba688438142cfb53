/** The unit in which signal strength is shown, and its lookup by name. */
module SignalUnits {
  import opened Wrappers

  datatype SignalUnit = DBF | DBUV | DBM {
    /** The label shown to the user and passed around as the unit's key. */
    function DisplayName(): string {
      match this
      case DBF => "dBf"
      case DBUV => "dBµV"
      case DBM => "dBm"
    }

    /** The enum constant's own name, as `SignalUnit.name` gives it. */
    function Name(): string {
      match this
      case DBF => "DBF"
      case DBUV => "DBUV"
      case DBM => "DBM"
    }
  }

  /** `SignalUnit.entries`, in declaration order. */
  const Entries: seq<SignalUnit> := [DBF, DBUV, DBM]

  /** The index of the first entry of `es` whose `key` is `name` (`firstOrNull`). */
  function FirstIndexWhere(es: seq<SignalUnit>, key: SignalUnit -> string, name: string): (r: Option<nat>)
    ensures r.Some? ==> r.value < |es| && key(es[r.value]) == name
    ensures r.Some? ==> forall j :: 0 <= j < r.value ==> key(es[j]) != name
    ensures r.None? ==> forall j :: 0 <= j < |es| ==> key(es[j]) != name
  {
    if es == [] then None
    else if key(es[0]) == name then Some(0)
    else match FirstIndexWhere(es[1..], key, name)
      case None => None
      case Some(k) => Some(k + 1)
  }

  /** `SignalUnit.fromDisplayName`: the first entry with that display name, else DBF. */
  function FromDisplayName(name: string): (u: SignalUnit)
    ensures (exists e: SignalUnit :: e.DisplayName() == name) ==> u.DisplayName() == name
    ensures (forall e: SignalUnit :: e.DisplayName() != name) ==> u == DBF
  {
    match FirstIndexWhere(Entries, (e: SignalUnit) => e.DisplayName(), name)
    case Some(i) => Entries[i]
    case None => NoEntryHasDisplayName(name); DBF
  }

  /** The enum-name lookup that restores the persisted unit, also falling back to DBF. */
  function FromName(name: string): (u: SignalUnit)
    ensures (exists e: SignalUnit :: e.Name() == name) ==> u.Name() == name
    ensures (forall e: SignalUnit :: e.Name() != name) ==> u == DBF
  {
    match FirstIndexWhere(Entries, (e: SignalUnit) => e.Name(), name)
    case Some(i) => Entries[i]
    case None => NoEntryHasName(name); DBF
  }

  /** Every unit is one of the three entries. */
  lemma EveryUnitIsAnEntry()
    ensures forall u: SignalUnit :: u in Entries
  {
    forall u: SignalUnit ensures u in Entries {
      match u
      case DBF => assert u == Entries[0];
      case DBUV => assert u == Entries[1];
      case DBM => assert u == Entries[2];
    }
  }

  /** A display name no entry has is the display name of no unit at all. */
  lemma NoEntryHasDisplayName(name: string)
    requires forall j :: 0 <= j < |Entries| ==> Entries[j].DisplayName() != name
    ensures forall e: SignalUnit :: e.DisplayName() != name
  {
    forall e: SignalUnit ensures e.DisplayName() != name {
      match e
      case DBF => assert Entries[0] == e;
      case DBUV => assert Entries[1] == e;
      case DBM => assert Entries[2] == e;
    }
  }

  /** An enum name no entry has is the name of no unit at all. */
  lemma NoEntryHasName(name: string)
    requires forall j :: 0 <= j < |Entries| ==> Entries[j].Name() != name
    ensures forall e: SignalUnit :: e.Name() != name
  {
    forall e: SignalUnit ensures e.Name() != name {
      match e
      case DBF => assert Entries[0] == e;
      case DBUV => assert Entries[1] == e;
      case DBM => assert Entries[2] == e;
    }
  }

  /** There are exactly three units, every unit is an entry, and their display names differ. */
  lemma EntriesAreAllUnitsWithDistinctNames()
    ensures |Entries| == 3 && forall u: SignalUnit :: u in Entries
    ensures forall i, j :: 0 <= i < j < |Entries| ==> Entries[i].DisplayName() != Entries[j].DisplayName()
    ensures forall i, j :: 0 <= i < j < |Entries| ==> Entries[i].Name() != Entries[j].Name()
  {
    EveryUnitIsAnEntry();
    assert "dBf"[2] != "dBµV"[2] && "dBµV"[2] != "dBm"[2] && "dBf"[2] != "dBm"[2];
    assert "DBF"[2] != "DBUV"[2] && "DBUV"[2] != "DBM"[2] && "DBF"[2] != "DBM"[2];
  }

  /** Looking up a unit's own display name gives the unit back. */
  lemma FromDisplayNameRoundTrip(u: SignalUnit)
    ensures FromDisplayName(u.DisplayName()) == u
  {
    EntriesAreAllUnitsWithDistinctNames();
  }

  /** Looking up a unit's own enum name gives the unit back. */
  lemma FromNameRoundTrip(u: SignalUnit)
    ensures FromName(u.Name()) == u
  {
    EntriesAreAllUnitsWithDistinctNames();
  }
}
