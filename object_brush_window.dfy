/**
 * The palette bookkeeping of `ObjectBrushWindow`: the list of categories, each with its
 * prefab slots, and the selected category and item. Categories are added and removed with
 * the header buttons, items with their trash buttons, and the whole list is replaced from a
 * biome profile. Every entry point keeps at least one category and a selected category that
 * exists.
 */
module ObjectBrushWindows {
  import opened Wrappers
  import opened Decimal
  import opened ObjectBrushHierarchy

  /** A prefab asset. */
  type PrefabId = nat

  /** `PaletteCategory`: its name, its default parent (empty for none) and its prefab slots
      (`None` for an empty slot). */
  datatype PaletteCategory = PaletteCategory(name: string, defaultParent: IndexPath, items: seq<Option<PrefabId>>)

  /** A category as a biome profile stores it: a name and prefab slots. */
  datatype ProfileCategory = ProfileCategory(name: string, items: seq<Option<PrefabId>>)

  /** The category put in place of an empty list. */
  function DefaultCategory(): PaletteCategory {
    PaletteCategory("Default", [], [])
  }

  /** `Mathf.Clamp` on `int`: below the minimum gives the minimum, else above the maximum
      gives the maximum. */
  function IntClamp(value: int, min: int, max: int): (r: int)
    ensures min <= max ==> min <= r <= max
    ensures min <= value <= max ==> r == value
    ensures value > max >= min ==> r == max
  {
    if value < min then min else if value > max then max else value
  }

  /** The list without the element at `index` (`List.RemoveAt`). */
  function RemovedAt<T>(s: seq<T>, index: nat): (r: seq<T>)
    requires index < |s|
    ensures |r| == |s| - 1
    ensures forall k :: 0 <= k < index ==> r[k] == s[k]
    ensures forall k :: index <= k < |r| ==> r[k] == s[k + 1]
  {
    s[..index] + s[index + 1..]
  }

  /** The item selection after the item at `removed` is deleted from the selected category:
      the deleted item is deselected, a later one moves down by one, an earlier one stays. */
  function SelectionAfterRemoval(selected: int, removed: nat): (r: int)
    ensures selected == removed ==> r == -1
    ensures selected != removed ==> r == if selected > removed then selected - 1 else selected
  {
    if selected == removed then -1
    else if selected > removed then selected - 1
    else selected
  }

  /** After a deletion, a selection that pointed at another item of the category still points
      at that same item. */
  lemma SelectionFollowsItem<T>(items: seq<T>, selected: int, removed: nat)
    requires removed < |items| && 0 <= selected < |items| && selected != removed
    ensures var r := SelectionAfterRemoval(selected, removed);
      0 <= r < |items| - 1 && RemovedAt(items, removed)[r] == items[selected]
  {
  }

  /** `ObjectBrushWindow`, reduced to its palette state. */
  class ObjectBrushWindow {
    var categories: seq<PaletteCategory>
    var selectedCategoryIndex: int
    var selectedItemIndex: int

    /** At least one category, and the selected category is one of them. */
    predicate Valid()
      reads this
    {
      |categories| >= 1 && 0 <= selectedCategoryIndex < |categories|
    }

    /** The serialized defaults: no category, category 0 and no item selected. */
    constructor ()
      ensures categories == [] && selectedCategoryIndex == 0 && selectedItemIndex == -1
    {
      categories := [];
      selectedCategoryIndex := 0;
      selectedItemIndex := -1;
    }

    /**
     * `OnEnable`: an empty list gets the `Default` category, and the selected category is
     * clamped into the list, kept when it is already in it. The item selection is left as
     * it is.
     */
    method OnEnable()
      modifies this`categories, this`selectedCategoryIndex
      ensures Valid()
      ensures categories == if old(categories) == [] then [DefaultCategory()] else old(categories)
      ensures selectedCategoryIndex == IntClamp(old(selectedCategoryIndex), 0, |categories| - 1)
      ensures 0 <= old(selectedCategoryIndex) < |categories| ==> selectedCategoryIndex == old(selectedCategoryIndex)
    {
      if |categories| == 0 {
        categories := categories + [DefaultCategory()];
      }
      selectedCategoryIndex := IntClamp(selectedCategoryIndex, 0, |categories| - 1);
    }

    /**
     * `LoadFromBiomeProfile`: without a profile nothing changes. Otherwise the categories are
     * replaced by the profile's, in order, with the same names and slots and no default
     * parent, or by the `Default` category when the profile has none; category 0 and no
     * item are selected.
     */
    method LoadFromBiomeProfile(profile: Option<seq<ProfileCategory>>)
      modifies this`categories, this`selectedCategoryIndex, this`selectedItemIndex
      ensures profile.None? ==>
        categories == old(categories) && selectedCategoryIndex == old(selectedCategoryIndex) &&
        selectedItemIndex == old(selectedItemIndex)
      ensures profile.Some? ==> Valid() && selectedCategoryIndex == 0 && selectedItemIndex == -1
      ensures profile.Some? && |profile.value| == 0 ==> categories == [DefaultCategory()]
      ensures profile.Some? && |profile.value| > 0 ==>
        |categories| == |profile.value| &&
        forall k :: 0 <= k < |categories| ==>
          categories[k] == PaletteCategory(profile.value[k].name, [], profile.value[k].items)
    {
      if profile.None? {
        return;
      }
      var source := profile.value;
      categories := [];
      for i := 0 to |source|
        invariant |categories| == i
        invariant forall k :: 0 <= k < i ==> categories[k] == PaletteCategory(source[k].name, [], source[k].items)
      {
        categories := categories + [PaletteCategory(source[i].name, [], source[i].items)];
      }
      if |categories| == 0 {
        categories := categories + [DefaultCategory()];
      }
      selectedCategoryIndex := 0;
      selectedItemIndex := -1;
    }

    /** The `+` button: a new empty category named `Category <count>` is appended and
        selected, with no item selected. */
    method AddCategory()
      modifies this`categories, this`selectedCategoryIndex, this`selectedItemIndex
      ensures categories == old(categories) + [PaletteCategory("Category " + DecimalString(|old(categories)|), [], [])]
      ensures selectedCategoryIndex == |categories| - 1 && selectedItemIndex == -1
      ensures Valid()
    {
      var category := PaletteCategory("Category " + DecimalString(|categories|), [], []);
      categories := categories + [category];
      selectedCategoryIndex := |categories| - 1;
      selectedItemIndex := -1;
    }

    /**
     * The `-` button, disabled while there is at most one category. With a selected category
     * in the list, that category is removed, the selection is clamped into the remaining
     * list (the next category takes the place, or the new last one), and no item is
     * selected; the list is never left empty.
     */
    method PressRemoveCategory()
      modifies this`categories, this`selectedCategoryIndex, this`selectedItemIndex
      ensures old(Valid()) ==> Valid()
      ensures |old(categories)| <= 1 || !(0 <= old(selectedCategoryIndex) < |old(categories)|) ==>
        categories == old(categories) && selectedCategoryIndex == old(selectedCategoryIndex) &&
        selectedItemIndex == old(selectedItemIndex)
      ensures |old(categories)| > 1 && 0 <= old(selectedCategoryIndex) < |old(categories)| ==>
        categories == RemovedAt(old(categories), old(selectedCategoryIndex)) &&
        selectedCategoryIndex == IntClamp(old(selectedCategoryIndex), 0, |categories| - 1) &&
        selectedItemIndex == -1 && Valid()
    {
      if |categories| <= 1 {
        return;
      }
      if selectedCategoryIndex >= 0 && selectedCategoryIndex < |categories| {
        categories := RemovedAt(categories, selectedCategoryIndex);
        if |categories| == 0 {
          categories := categories + [DefaultCategory()];
        }
        selectedCategoryIndex := IntClamp(selectedCategoryIndex, 0, |categories| - 1);
        selectedItemIndex := -1;
      }
    }

    /**
     * The trash button of item `index` in category `categoryIndex`: the slot is removed from
     * that category, and when it is the selected category the item selection follows
     * `SelectionAfterRemoval`, so a selected item other than the deleted one stays selected.
     */
    method RemoveItem(categoryIndex: nat, index: nat)
      requires categoryIndex < |categories| && index < |categories[categoryIndex].items|
      modifies this`categories, this`selectedItemIndex
      ensures var c := old(categories)[categoryIndex];
        categories == old(categories)[categoryIndex := c.(items := RemovedAt(c.items, index))]
      ensures selectedItemIndex ==
        if old(selectedCategoryIndex) == categoryIndex then SelectionAfterRemoval(old(selectedItemIndex), index)
        else old(selectedItemIndex)
      ensures old(Valid()) ==> Valid()
    {
      var category := categories[categoryIndex];
      categories := categories[categoryIndex := category.(items := RemovedAt(category.items, index))];
      if selectedCategoryIndex == categoryIndex {
        if selectedItemIndex == index {
          selectedItemIndex := -1;
        } else if selectedItemIndex > index {
          selectedItemIndex := selectedItemIndex - 1;
        }
      }
    }
  }

  /**
   * A fresh window gets the `Default` category; adding one selects it as `Category 1`;
   * removing it selects the remaining category, and the remove button then does nothing.
   */
  method AddThenRemoveCategory() returns (names: seq<string>, selected: int, namesAfterSecondPress: seq<string>)
    ensures names == ["Default"] && selected == 0 && namesAfterSecondPress == ["Default"]
  {
    var window := new ObjectBrushWindow();
    window.OnEnable();
    window.AddCategory();
    assert DecimalString(1) == [DigitChar(1)];
    window.PressRemoveCategory();
    names := [window.categories[0].name];
    assert |window.categories| == 1;
    selected := window.selectedCategoryIndex;
    window.PressRemoveCategory();
    namesAfterSecondPress := [window.categories[0].name];
  }
}
