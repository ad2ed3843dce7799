/** Per-tab persistence: one root object in the browser's local storage,
    holding one slot per tab, read whole, updated in one slot and written
    back whole. Reading and writing can both fail; neither failure reaches
    the caller. */
module Storage {
  import opened Types
  import opened Json

  /** What the storage item holds: nothing (`null`, or the falsy empty
      string), a text that parses to a root object, or a text that does not
      parse. */
  datatype Cell = Absent | Holds(root: map<string, Json>) | Corrupt

  /** What `getFullState` returns: the parsed root, or an empty object when
      the item is missing, unreadable or corrupt. */
  function FullState(cell: Cell, readFails: bool): map<string, Json> {
    if !readFails && cell.Holds? then cell.root else map[]
  }

  /** What `loadStateForTab` returns: the tab's slot when it is truthy,
      otherwise `null`. */
  function Loaded(cell: Cell, readFails: bool, tab: Tab): Option<Json> {
    var state := FullState(cell, readFails);
    if TabKey(tab) in state && Truthy(state[TabKey(tab)]) then Some(state[TabKey(tab)]) else None
  }

  /** The item after `setFullState(state)`: replaced, unless the write fails. */
  function Written(cell: Cell, writeFails: bool, state: map<string, Json>): Cell {
    if writeFails then cell else Holds(state)
  }

  /** The item after `saveStateForTab(tab, data)`. */
  function Saved(cell: Cell, readFails: bool, writeFails: bool, tab: Tab, data: Json): Cell {
    Written(cell, writeFails, FullState(cell, readFails)[TabKey(tab) := data])
  }

  /** The backing local-storage item (key `quadwos-hub-data`), with switches for the two failures
      the browser can raise (storage unavailable on read; quota or
      serialisation failure on write). */
  class Store {
    var cell: Cell
    var readFails: bool
    var writeFails: bool

    constructor (cell: Cell, readFails: bool, writeFails: bool)
      ensures this.cell == cell && this.readFails == readFails && this.writeFails == writeFails
    {
      this.cell := cell;
      this.readFails := readFails;
      this.writeFails := writeFails;
    }

    /** `getFullState`: never fails; a missing, unreadable or corrupt item
        reads as an empty root. */
    method GetFullState() returns (state: map<string, Json>)
      ensures readFails || !cell.Holds? ==> state == map[]
      ensures !readFails && cell.Holds? ==> state == cell.root
      ensures state == FullState(cell, readFails)
    {
      if readFails {
        return map[];
      }
      match cell
      case Holds(root) => state := root;
      case Absent => state := map[];
      case Corrupt => state := map[];
    }

    /** `setFullState`: writes the whole root; a failed write is swallowed
        and leaves the item as it was. */
    method SetFullState(state: map<string, Json>)
      modifies this
      ensures cell == Written(old(cell), writeFails, state)
      ensures writeFails ==> cell == old(cell)
      ensures !writeFails ==> cell == Holds(state)
      ensures readFails == old(readFails) && writeFails == old(writeFails)
    {
      if !writeFails {
        cell := Holds(state);
      }
    }

    /** `loadStateForTab`: the tab's slot if the root is readable and the
        slot holds a truthy value, otherwise `None` (JavaScript `null`). */
    method LoadStateForTab(tab: Tab) returns (r: Option<Json>)
      ensures r.Some? <==> !readFails && cell.Holds? && TabKey(tab) in cell.root
                           && Truthy(cell.root[TabKey(tab)])
      ensures r.Some? ==> r.value == cell.root[TabKey(tab)]
      ensures r == Loaded(cell, readFails, tab)
    {
      var state := GetFullState();
      var key := TabKey(tab);
      if key in state && Truthy(state[key]) {
        r := Some(state[key]);
      } else {
        r := None;
      }
    }

    /** `saveStateForTab`: reads the root, overwrites one slot and writes the
        root back. */
    method SaveStateForTab(tab: Tab, data: Json)
      modifies this
      ensures cell == Saved(old(cell), readFails, writeFails, tab, data)
      ensures readFails == old(readFails) && writeFails == old(writeFails)
    {
      var state := GetFullState();
      state := state[TabKey(tab) := data];
      SetFullState(state);
    }
  }

  /** With a working store, a save followed by a load gives back the saved
      value, or `None` when that value is falsy. The root may have been
      unreadable during the save. */
  lemma SaveThenLoad(cell: Cell, readFails: bool, tab: Tab, data: Json)
    ensures Loaded(Saved(cell, readFails, false, tab, data), false, tab)
            == if Truthy(data) then Some(data) else None
  {
  }

  /** Saving one slot of a readable root leaves every other key of the root
      exactly as it was. */
  lemma SaveKeepsOtherKeys(root: map<string, Json>, tab: Tab, data: Json, key: string)
    requires key != TabKey(tab)
    ensures var after := Saved(Holds(root), false, false, tab, data);
            after.Holds? && (key in after.root <==> key in root)
            && (key in root ==> after.root[key] == root[key])
  {
  }

  /** In particular no other tab's load changes. */
  lemma SaveKeepsOtherSlots(root: map<string, Json>, tab: Tab, other: Tab, data: Json)
    requires other != tab
    ensures Loaded(Saved(Holds(root), false, false, tab, data), false, other)
            == Loaded(Holds(root), false, other)
  {
    TabKeyInjective(tab, other);
  }

  /** A missing root, or a root without the tab's slot, loads as `None`. */
  lemma LoadWithoutSlot(cell: Cell, readFails: bool, tab: Tab)
    requires cell.Absent? || (cell.Holds? && TabKey(tab) !in cell.root)
    ensures Loaded(cell, readFails, tab) == None
  {
  }

  /** An unreadable or corrupt root reads as empty and loads as `None`. */
  lemma UnreadableRootReadsEmpty(cell: Cell, readFails: bool, tab: Tab)
    requires readFails || cell.Corrupt?
    ensures FullState(cell, readFails) == map[]
    ensures Loaded(cell, readFails, tab) == None
  {
  }

  /** A failed write leaves the stored item unchanged. */
  lemma FailedWriteKeepsItem(cell: Cell, readFails: bool, tab: Tab, data: Json)
    ensures Saved(cell, readFails, true, tab, data) == cell
  {
  }

  /** Saving over an unreadable or corrupt root writes a root with the one
      saved slot and nothing else: the other slots are lost. */
  lemma SaveOverUnreadableRoot(cell: Cell, readFails: bool, tab: Tab, data: Json)
    requires readFails || !cell.Holds?
    ensures Saved(cell, readFails, false, tab, data) == Holds(map[TabKey(tab) := data])
  {
  }

  /** A slot holding a falsy value loads as `None`. */
  lemma FalsySlotLoadsNone(root: map<string, Json>, tab: Tab)
    requires TabKey(tab) in root && !Truthy(root[TabKey(tab)])
    ensures Loaded(Holds(root), false, tab) == None
  {
  }

  /** Two saves to one slot: the second value wins, exactly as if only the
      second save had happened. */
  lemma LastWriteWins(cell: Cell, readFails: bool, tab: Tab, first: Json, second: Json)
    ensures Saved(Saved(cell, readFails, false, tab, first), false, false, tab, second)
            == Saved(cell, readFails, false, tab, second)
  {
    var key := TabKey(tab);
    var before := FullState(cell, readFails);
    assert before[key := first][key := second] == before[key := second];
  }
}
