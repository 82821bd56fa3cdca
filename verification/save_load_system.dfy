/**
 * The save-slot list: saving a character under a name replaces any slot of
 * that name and puts the new slot last; deleting removes every slot of a name
 * once the user confirms. Slot data is the serialised character, kept as an
 * opaque string.
 */
module SaveLoadSystem {
  import opened Text
  import Lists

  datatype Slot = Slot(name: string, data: string)

  predicate OtherName(name: string, s: Slot) { s.name != name }

  /** `savedCharacters.filter((char) => char.name !== name)` */
  function WithoutName(slots: seq<Slot>, name: string): (r: seq<Slot>)
    ensures forall i :: 0 <= i < |r| ==> r[i].name != name && r[i] in slots
    ensures forall i :: 0 <= i < |slots| && slots[i].name != name ==> slots[i] in r
  {
    Lists.Filter(slots, s => OtherName(name, s))
  }

  /** The slot list after `saveCharacter`: a blank name saves nothing. */
  function SaveSlots(slots: seq<Slot>, name: string, data: string): seq<Slot> {
    if IsBlank(name) then slots else WithoutName(slots, name) + [Slot(name, data)]
  }

  /** The slot list after `deleteCharacter`: only a confirmed delete filters. */
  function DeleteSlots(slots: seq<Slot>, name: string, confirmed: bool): seq<Slot> {
    if confirmed then WithoutName(slots, name) else slots
  }

  /** Saving under a name that trims to nothing leaves the list as it was. */
  lemma BlankSaveIgnored(slots: seq<Slot>, name: string, data: string)
    requires forall i :: 0 <= i < |name| ==> IsWhitespace(name[i])
    ensures SaveSlots(slots, name, data) == slots
  {
    BlankIffAllWhitespace(name);
  }

  /**
   * After a save there is exactly one slot with that name: the last one, which
   * holds the new data.
   */
  lemma SaveIsUpsert(slots: seq<Slot>, name: string, data: string)
    requires !IsBlank(name)
    ensures var r := SaveSlots(slots, name, data);
      && r != []
      && r[|r| - 1] == Slot(name, data)
      && forall i :: 0 <= i < |r| - 1 ==> r[i].name != name
  {
  }

  /**
   * A save keeps every slot of another name, with its data, in its relative
   * order, each once; nothing else is kept.
   */
  lemma SaveKeepsOthers(slots: seq<Slot>, name: string, data: string) returns (idx: seq<nat>)
    requires !IsBlank(name)
    ensures var r := SaveSlots(slots, name, data);
      && Lists.IsSelection(slots, r[..|r| - 1], idx)
      && forall i :: 0 <= i < |slots| ==> (i in idx <==> slots[i].name != name)
  {
    idx := Lists.FilterSelection(slots, s => OtherName(name, s));
    var r := SaveSlots(slots, name, data);
    assert r[..|r| - 1] == WithoutName(slots, name);
  }

  /** Saving twice under one name keeps only the second save. */
  lemma SaveTwice(slots: seq<Slot>, name: string, first: string, second: string)
    requires !IsBlank(name)
    ensures SaveSlots(SaveSlots(slots, name, first), name, second) == SaveSlots(slots, name, second)
  {
    var kept := WithoutName(slots, name);
    Lists.FilterAppend(kept, Slot(name, first), s => OtherName(name, s));
    FilterKeepsPassing(kept, name);
  }

  /** Filtering out a name from a list without that name changes nothing. */
  lemma {:induction false} FilterKeepsPassing(slots: seq<Slot>, name: string)
    requires forall i :: 0 <= i < |slots| ==> slots[i].name != name
    ensures WithoutName(slots, name) == slots
    decreases |slots|
  {
    if slots != [] {
      var init := slots[..|slots| - 1];
      FilterKeepsPassing(init, name);
      assert slots == init + [slots[|slots| - 1]];
    }
  }

  /** An unconfirmed delete leaves the list as it was. */
  lemma UnconfirmedDeleteIgnored(slots: seq<Slot>, name: string)
    ensures DeleteSlots(slots, name, false) == slots
  {
  }

  /**
   * A confirmed delete removes every slot with that name and keeps all the
   * others in their relative order, each once.
   */
  lemma ConfirmedDelete(slots: seq<Slot>, name: string) returns (idx: seq<nat>)
    ensures var r := DeleteSlots(slots, name, true);
      && (forall i :: 0 <= i < |r| ==> r[i].name != name)
      && Lists.IsSelection(slots, r, idx)
      && forall i :: 0 <= i < |slots| ==> (i in idx <==> slots[i].name != name)
  {
    idx := Lists.FilterSelection(slots, s => OtherName(name, s));
  }

  /** Deleting a name just saved takes out the new slot and every older one of that name. */
  lemma DeleteAfterSave(slots: seq<Slot>, name: string, data: string)
    requires !IsBlank(name)
    ensures DeleteSlots(SaveSlots(slots, name, data), name, true) == WithoutName(slots, name)
  {
    var kept := WithoutName(slots, name);
    Lists.FilterAppend(kept, Slot(name, data), s => OtherName(name, s));
    FilterKeepsPassing(kept, name);
  }

  /**
   * The save panel's state: the name typed, the slot list shown, and the copy
   * written to browser storage.
   */
  class SavePanel {
    var saveName: string
    var savedCharacters: seq<Slot>
    var storage: seq<Slot>

    /** The list is read back from storage when the panel mounts. */
    constructor (stored: seq<Slot>)
      ensures saveName == "" && savedCharacters == stored && storage == stored
    {
      saveName, savedCharacters, storage := "", stored, stored;
    }

    /** Typing into the name input. */
    method SetSaveName(name: string)
      modifies this
      ensures saveName == name
      ensures savedCharacters == old(savedCharacters) && storage == old(storage)
    {
      saveName := name;
    }

    /**
     * `saveCharacter`: with a non-blank name, upsert the slot, write the list
     * to storage and clear the name; with a blank name, nothing happens.
     */
    method SaveCharacter(data: string)
      modifies this
      ensures IsBlank(old(saveName)) ==>
        saveName == old(saveName) && savedCharacters == old(savedCharacters) && storage == old(storage)
      ensures !IsBlank(old(saveName)) ==>
        && savedCharacters == SaveSlots(old(savedCharacters), old(saveName), data)
        && storage == savedCharacters
        && saveName == ""
    {
      if IsBlank(saveName) {
        return;
      }
      var updated := WithoutName(savedCharacters, saveName) + [Slot(saveName, data)];
      storage := updated;
      savedCharacters := updated;
      saveName := "";
    }

    /** `deleteCharacter`: a confirmed delete filters the name out and writes the list to storage. */
    method DeleteCharacter(name: string, confirmed: bool)
      modifies this
      ensures savedCharacters == DeleteSlots(old(savedCharacters), name, confirmed)
      ensures confirmed ==> storage == savedCharacters
      ensures !confirmed ==> storage == old(storage)
      ensures saveName == old(saveName)
    {
      if confirmed {
        var updated := WithoutName(savedCharacters, name);
        storage := updated;
        savedCharacters := updated;
      }
    }
  }
}
