/**
 * The older category entry. Its rename handling is the same as the board
 * entry's, but its context menu is a record of its own holding only the
 * placement, computed from the entry's position inside its scrolling
 * container rather than from the window.
 */
module LegacyCategoryItem {
  import opened Wrappers
  import opened CategoryItem

  /** The scroll offset and visible height of the list's container. */
  datatype Container = Container(scrollTop: real, clientHeight: real)

  /** The entry button's offset inside the container and its height. */
  datatype Element = Element(offsetTop: real, offsetHeight: real)

  /**
   * The room between the entry's visible bottom edge and the container's
   * visible bottom: in the container's content coordinates, the entry's
   * bottom plus this room is the bottom of the scrolled view.
   */
  function SpaceBelow(container: Container, element: Element): (r: real)
    ensures element.offsetTop + element.offsetHeight + r == container.scrollTop + container.clientHeight
  {
    container.clientHeight - (element.offsetTop - container.scrollTop + element.offsetHeight)
  }

  /** Above the entry exactly when a menu hung from its bottom edge would reach past the container's visible bottom. */
  function LegacyPlacement(container: Container, element: Element): (p: Placement)
    ensures p == Top <==> element.offsetTop + element.offsetHeight + MenuHeight > container.scrollTop + container.clientHeight
  {
    if SpaceBelow(container, element) < MenuHeight then Top else Bottom
  }

  /**
   * The older rule is the board entry's 80 px rule with the container in
   * place of the window: the entry's bottom edge seen from the container's
   * visible top plays the bounding box's bottom, and the container's
   * visible height plays the window's height.
   */
  lemma LegacyIsWindowRule(container: Container, element: Element, rect: Rect)
    requires rect.bottom == element.offsetTop - container.scrollTop + element.offsetHeight
    ensures LegacyPlacement(container, element) == PlaceMenu(container.clientHeight, rect)
  {
  }

  /**
   * Scrolling the list further down never moves a menu from below the
   * entry to above it, and an entry lower in the list (same height) gets
   * its menu above whenever a higher one does.
   */
  lemma PlacementMonotone(container: Container, element: Element, scrolled: real, lower: real)
    requires scrolled >= container.scrollTop && lower >= element.offsetTop
    ensures LegacyPlacement(container, element) == Bottom ==>
      LegacyPlacement(container.(scrollTop := scrolled), element) == Bottom
    ensures LegacyPlacement(container, element) == Top ==>
      LegacyPlacement(container, element.(offsetTop := lower)) == Top
  {
  }

  /** The renaming record the list shares between its entries. */
  class RenamingSlot {
    var renaming: Option<Renaming>

    constructor ()
      ensures renaming.None?
    {
      renaming := None;
    }
  }

  class LegacyItem {
    const category: Category
    /** This entry's own context menu. */
    var contextMenu: Option<Placement>

    constructor (category: Category)
      ensures this.category == category && contextMenu.None?
    {
      this.category := category;
      contextMenu := None;
    }

    /** A right click: nothing happens without a container; otherwise the menu opens with the computed placement. */
    method OpenContextMenu(container: Option<Container>, element: Element)
      modifies this
      ensures container.None? ==> contextMenu == old(contextMenu)
      ensures container.Some? ==> contextMenu == Some(LegacyPlacement(container.value, element))
    {
      if container.None? {
        return;
      }
      contextMenu := Some(LegacyPlacement(container.value, element));
    }

    /** Any click in the document closes this entry's menu. */
    method DocumentClick()
      modifies this
      ensures contextMenu.None?
    {
      contextMenu := None;
    }

    method Input(slot: RenamingSlot, value: string)
      requires ShowsRenameInput(slot.renaming, category)
      modifies slot
      ensures slot.renaming == Some(Renaming(category.id, value))
    {
      slot.renaming := Some(slot.renaming.value.(name := value));
    }

    /** A key press in the rename input: the rule of the board entry; only Escape clears the record. */
    method KeyDown(slot: RenamingSlot, key: string) returns (effect: RenameEffect)
      requires ShowsRenameInput(slot.renaming, category)
      modifies slot
      ensures effect == RenameKey(key, category.id, old(slot.renaming).value.name)
      ensures slot.renaming == if effect.Cancel? then None else old(slot.renaming)
    {
      effect := RenameKey(key, category.id, slot.renaming.value.name);
      if effect.Cancel? {
        slot.renaming := None;
      }
    }

    /** A double click, or the menu's edit item, starts renaming from the current name. */
    method StartRename(slot: RenamingSlot)
      modifies slot
      ensures slot.renaming == Some(Renaming(category.id, category.name))
      ensures ShowsRenameInput(slot.renaming, category)
    {
      slot.renaming := Some(Renaming(category.id, category.name));
    }
  }
}
