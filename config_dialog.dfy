/**
 * The display-column part of Discovery's configuration dialog
 * (Discovery/config_dialog.py): five combo boxes whose texts are joined into
 * the `display_columns` setting when the dialog is saved, and filled from
 * the setting when the dialog opens.
 *
 * A combo box is modelled by its current text: `set_combo_current_text`
 * either selects the item with that text or puts the text in the edit
 * field. Every display combo is taken to be editable, so either way the
 * current text becomes the name given.
 */
module Config {
  import opened Text

  /** The number of display-column combo boxes. */
  const SlotCount: nat := 5

  /** Five empty combo boxes. */
  function Blank(): (b: seq<string>)
    ensures |b| == SlotCount && forall i :: 0 <= i < |b| ==> b[i] == ""
  {
    ["", "", "", "", ""]
  }

  /** The non-empty texts, in order: what `display_columns` collects before joining. */
  function NonEmpty(texts: seq<string>): (names: seq<string>)
    ensures |names| <= |texts|
    ensures forall i :: 0 <= i < |names| ==> names[i] != ""
    decreases |texts|
  {
    if texts == [] then []
    else
      var last := texts[|texts| - 1];
      NonEmpty(texts[..|texts| - 1]) + if last != "" then [last] else []
  }

  /** The `display_columns` setting the dialog writes for the given combo texts. */
  function DisplayText(slots: seq<string>): string {
    Join(NonEmpty(slots), ",")
  }

  /**
   * The loader: nothing changes for an empty setting; otherwise piece `i`
   * of the comma split goes into combo `i` for each of the first five
   * pieces, and combos beyond the last piece keep their text.
   */
  function Loaded(slots: seq<string>, columns: string): (r: seq<string>)
    requires |slots| == SlotCount
    ensures |r| == SlotCount
  {
    if |columns| == 0 then slots
    else
      var lst := Split(columns, ',');
      seq(SlotCount, i requires 0 <= i < SlotCount => if i < |lst| then lst[i] else slots[i])
  }

  /** At most five names, packed to the front and padded with empty combos. */
  function Packed(names: seq<string>): (r: seq<string>)
    requires |names| <= SlotCount
    ensures |r| == SlotCount
  {
    names + seq(SlotCount - |names|, _ => "")
  }

  predicate CommaFree(texts: seq<string>) {
    forall i :: 0 <= i < |texts| ==> ',' !in texts[i]
  }

  class ConfigDialog {
    /** The current texts of cboDisplayColumn1 to cboDisplayColumn5. */
    var slots: seq<string>

    predicate Valid()
      reads this
    {
      |slots| == SlotCount
    }

    /** The dialog opens with empty combos and loads the stored setting into them. */
    constructor(displayColumns: string)
      ensures Valid() && slots == Loaded(Blank(), displayColumns)
    {
      slots := Blank();
      new;
      LoadDisplayColumns(displayColumns);
    }

    /** The `display_columns` loader of `__init__`: an if-chain over the first five pieces. */
    method LoadDisplayColumns(columns: string)
      requires Valid()
      modifies this`slots
      ensures Valid() && slots == Loaded(old(slots), columns)
    {
      if |columns| != 0 {
        var lst := Split(columns, ',');
        slots := slots[0 := lst[0]];
        if |lst| > 1 {
          slots := slots[1 := lst[1]];
        }
        if |lst| > 2 {
          slots := slots[2 := lst[2]];
        }
        if |lst| > 3 {
          slots := slots[3 := lst[3]];
        }
        if |lst| > 4 {
          slots := slots[4 := lst[4]];
        }
      }
    }

    /** `display_columns`: the non-empty combo texts, in combo order, joined with commas. */
    method DisplayColumns() returns (text: string)
      requires Valid()
      ensures text == DisplayText(slots)
    {
      var lst: seq<string> := [];
      for i := 0 to SlotCount
        invariant lst == NonEmpty(slots[..i])
      {
        assert slots[..i + 1][..i] == slots[..i];
        if |slots[i]| > 0 {
          lst := lst + [slots[i]];
        }
      }
      assert slots[..SlotCount] == slots;
      text := Join(lst, ",");
    }
  }

  // ---------------------------------------------------------------------------
  // Writing and reading back the setting
  // ---------------------------------------------------------------------------

  lemma {:induction false} NonEmptyAppend(a: seq<string>, b: seq<string>)
    ensures NonEmpty(a + b) == NonEmpty(a) + NonEmpty(b)
    decreases |b|
  {
    if b != [] {
      var front := b[..|b| - 1];
      assert (a + b)[..|a + b| - 1] == a + front;
      var last := b[|b| - 1];
      var kept: seq<string> := if last != "" then [last] else [];
      assert (a + b)[|a + b| - 1] == last;
      assert NonEmpty(a + b) == NonEmpty(a + front) + kept;
      assert NonEmpty(b) == NonEmpty(front) + kept;
      NonEmptyAppend(a, front);
    } else {
      assert a + b == a;
    }
  }

  lemma {:induction false} NonEmptyKeepsNames(names: seq<string>)
    requires forall i :: 0 <= i < |names| ==> names[i] != ""
    ensures NonEmpty(names) == names
    decreases |names|
  {
    if names != [] {
      NonEmptyKeepsNames(names[..|names| - 1]);
    }
  }

  lemma {:induction false} NonEmptyDropsBlanks(texts: seq<string>)
    requires forall i :: 0 <= i < |texts| ==> texts[i] == ""
    ensures NonEmpty(texts) == []
    decreases |texts|
  {
    if texts != [] {
      NonEmptyDropsBlanks(texts[..|texts| - 1]);
    }
  }

  lemma {:induction false} NonEmptyCommaFree(texts: seq<string>)
    requires CommaFree(texts)
    ensures CommaFree(NonEmpty(texts))
    decreases |texts|
  {
    if texts != [] {
      NonEmptyCommaFree(texts[..|texts| - 1]);
    }
  }

  /** Packing names and collecting the non-empty combos gives the names back. */
  lemma PackedNames(names: seq<string>)
    requires |names| <= SlotCount
    requires forall i :: 0 <= i < |names| ==> names[i] != ""
    ensures NonEmpty(Packed(names)) == names
  {
    NonEmptyAppend(names, seq(SlotCount - |names|, _ => ""));
    NonEmptyKeepsNames(names);
    NonEmptyDropsBlanks(seq(SlotCount - |names|, _ => ""));
  }

  /**
   * The saved setting splits back into the names it was made of when no
   * combo text holds a comma; with every combo empty the setting is "".
   */
  lemma DisplayTextSplits(slots: seq<string>)
    requires CommaFree(slots)
    ensures NonEmpty(slots) == [] ==> DisplayText(slots) == ""
    ensures NonEmpty(slots) != [] ==> Split(DisplayText(slots), ',') == NonEmpty(slots)
  {
    NonEmptyCommaFree(slots);
    if NonEmpty(slots) != [] {
      SplitJoin(NonEmpty(slots), ',');
    }
  }

  /**
   * Saving and reopening the dialog packs the chosen columns: the combos
   * then hold the non-empty texts in their order, moved to the front, and
   * the remaining combos are empty.
   */
  lemma {:induction false} ReopenPacks(slots: seq<string>)
    requires |slots| == SlotCount && CommaFree(slots)
    ensures Loaded(Blank(), DisplayText(slots)) == Packed(NonEmpty(slots))
  {
    var names := NonEmpty(slots);
    DisplayTextSplits(slots);
    if names == [] {
      assert Loaded(Blank(), "") == Blank();
      assert Packed([]) == Blank();
    } else {
      assert |DisplayText(slots)| >= |names[0]| > 0;
    }
  }

  /** Combos filled from the front without gaps are their names, packed. */
  lemma NoGapsPacked(slots: seq<string>, k: nat)
    requires |slots| == SlotCount && k <= SlotCount
    requires forall i :: 0 <= i < k ==> slots[i] != ""
    requires forall i :: k <= i < SlotCount ==> slots[i] == ""
    ensures NonEmpty(slots) == slots[..k]
    ensures Packed(slots[..k]) == slots
  {
    var names, blanks := slots[..k], slots[k..];
    assert slots == names + blanks;
    NonEmptyAppend(names, blanks);
    NonEmptyKeepsNames(names);
    NonEmptyDropsBlanks(blanks);
    PaddingIsBlanks(blanks);
  }

  lemma PaddingIsBlanks(blanks: seq<string>)
    requires forall i :: 0 <= i < |blanks| ==> blanks[i] == ""
    ensures blanks == seq(|blanks|, _ => "")
  {
  }

  /** Combos filled from the front without gaps come back exactly as they were. */
  lemma NoGapsRoundTrip(slots: seq<string>, k: nat)
    requires |slots| == SlotCount && CommaFree(slots) && k <= SlotCount
    requires forall i :: 0 <= i < k ==> slots[i] != ""
    requires forall i :: k <= i < SlotCount ==> slots[i] == ""
    ensures Loaded(Blank(), DisplayText(slots)) == slots
  {
    NoGapsPacked(slots, k);
    ReopenPacks(slots);
  }

  /**
   * The other direction: a setting of one to five non-empty names, loaded
   * into fresh combos and saved again, is the same setting.
   */
  lemma SettingRoundTrip(columns: string)
    requires columns != ""
    requires |Split(columns, ',')| <= SlotCount
    requires forall i :: 0 <= i < |Split(columns, ',')| ==> Split(columns, ',')[i] != ""
    ensures DisplayText(Loaded(Blank(), columns)) == columns
  {
    var lst := Split(columns, ',');
    assert Loaded(Blank(), columns) == Packed(lst);
    PackedNames(lst);
    JoinSplit(columns, ',');
  }

  /** Names after the fifth are dropped on loading. */
  lemma ExtraNamesDropped(columns: string)
    requires |Split(columns, ',')| > SlotCount
    ensures Loaded(Blank(), columns) == Split(columns, ',')[..SlotCount]
  {
  }
}
