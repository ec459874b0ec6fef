/**
 * One entry of the board's category list. Its rename input and its context
 * menu are driven by two records the list shares between all entries: the
 * category being renamed (with the text typed so far) and the open context
 * menu (which category, above or below, and the entry's bounding box).
 */
module CategoryItem {
  import opened Wrappers
  import opened Text

  datatype Category = Category(id: int, name: string)

  /** The category being renamed and the text its input currently holds. */
  datatype Renaming = Renaming(id: int, name: string)

  datatype Placement = Top | Bottom

  /** The entry's bounding box in viewport pixels. */
  datatype Rect = Rect(top: real, bottom: real, right: real)

  datatype ContextMenu = ContextMenu(categoryId: int, position: Placement, rect: Rect)

  const MenuHeight: real := 80.0
  const MenuWidth: real := 144.0

  /** The entry renders its rename input instead of its button exactly when the shared record names its id. */
  function ShowsRenameInput(renaming: Option<Renaming>, c: Category): (r: bool)
    ensures r <==> renaming.Some? && renaming.value.id == c.id
    ensures renaming.None? ==> !r
  {
    renaming.Some? && renaming.value.id == c.id
  }

  /**
   * The entry renders the shared context menu exactly when the open menu
   * names its id. An entry in rename mode returns its input before the menu
   * is drawn, but no reachable state has both on one entry: the menu's edit
   * item (`EditFromMenu`) and the document click that closes the menu
   * (`DocumentClick`) are one and the same click.
   */
  function ShowsMenu(menu: Option<ContextMenu>, c: Category): (r: bool)
    ensures r <==> menu.Some? && menu.value.categoryId == c.id
    ensures menu.None? ==> !r
  {
    menu.Some? && menu.value.categoryId == c.id
  }

  /** The shared records put at most one entry into rename mode and open at most one menu. */
  lemma AtMostOneEntry(renaming: Option<Renaming>, menu: Option<ContextMenu>, a: Category, b: Category)
    requires a.id != b.id
    ensures !(ShowsRenameInput(renaming, a) && ShowsRenameInput(renaming, b))
    ensures !(ShowsMenu(menu, a) && ShowsMenu(menu, b))
  {
  }

  /** What a key press in the rename input asks for. */
  datatype RenameEffect =
    | Rename(id: int, name: string)   // `renameCategory(id, name)`
    | Cancel                          // the renaming record is cleared
    | Ignore

  /**
   * The rename input's key handler: Enter renames to the trimmed text when
   * that is not blank, Escape cancels, and every other key, as well as
   * Enter on blank text, does nothing.
   */
  function RenameKey(key: string, id: int, typed: string): (e: RenameEffect)
    ensures e.Rename? <==> key == "Enter" && !AllWhitespace(typed)
    ensures e.Rename? ==> e.id == id && e.name == Trim(typed)
    ensures e.Rename? ==> NoBlankEnds(e.name)
    ensures e.Cancel? <==> key == "Escape"
  {
    var trimmed := Trim(typed);
    if key == "Enter" && trimmed != "" then Rename(id, trimmed)
    else if key == "Escape" then Cancel
    else Ignore
  }

  /**
   * Above the entry when less than the menu's height is left below it in
   * the window, that is, when a menu hung from the entry's bottom edge
   * would reach past the window's bottom.
   */
  function PlaceMenu(innerHeight: real, rect: Rect): (p: Placement)
    ensures p == Top <==> rect.bottom + MenuHeight > innerHeight
    ensures p == Bottom ==> rect.bottom + MenuHeight <= innerHeight
  {
    if innerHeight - rect.bottom < MenuHeight then Top else Bottom
  }

  /** The menu's top edge: it hangs from the entry's bottom edge, or ends at the entry's top edge. */
  function MenuTop(menu: ContextMenu): (t: real)
    ensures menu.position == Bottom ==> t == menu.rect.bottom
    ensures menu.position == Top ==> t + MenuHeight == menu.rect.top
  {
    if menu.position == Bottom then menu.rect.bottom else menu.rect.top - MenuHeight
  }

  /** The menu's left edge: the menu is right-aligned with the entry. */
  function MenuLeft(menu: ContextMenu): (l: real)
    ensures l + MenuWidth == menu.rect.right
  {
    menu.rect.right - MenuWidth
  }

  /**
   * The menu opened on an entry: it goes above exactly when it would not
   * fit below; below, it starts at the entry's bottom edge and ends inside
   * the window; above, it ends at the entry's top edge; it is always
   * right-aligned with the entry.
   */
  lemma OpenedMenuGeometry(innerHeight: real, rect: Rect, id: int)
    ensures var m := ContextMenu(id, PlaceMenu(innerHeight, rect), rect);
      (m.position == Top <==> innerHeight - rect.bottom < 80.0) &&
      (m.position == Bottom ==> MenuTop(m) == rect.bottom && MenuTop(m) + 80.0 <= innerHeight) &&
      (m.position == Top ==> MenuTop(m) + 80.0 == rect.top) &&
      MenuLeft(m) + 144.0 == rect.right
  {
  }

  /** The two records the list shares with each of its entries. */
  class SharedState {
    var renaming: Option<Renaming>
    var contextMenu: Option<ContextMenu>

    constructor ()
      ensures renaming.None? && contextMenu.None?
    {
      renaming := None;
      contextMenu := None;
    }

    /** Typing into the rename input of `c`: the text changes and the id is kept. */
    method Input(c: Category, value: string)
      requires ShowsRenameInput(renaming, c)
      modifies this
      ensures renaming == Some(Renaming(old(renaming).value.id, value))
      ensures ShowsRenameInput(renaming, c)
      ensures contextMenu == old(contextMenu)
    {
      renaming := Some(renaming.value.(name := value));
    }

    /** A key press in the rename input of `c`; only Escape changes the shared state. */
    method KeyDown(c: Category, key: string) returns (effect: RenameEffect)
      requires ShowsRenameInput(renaming, c)
      modifies this
      ensures effect == RenameKey(key, c.id, old(renaming).value.name)
      ensures renaming == if effect.Cancel? then None else old(renaming)
      ensures contextMenu == old(contextMenu)
    {
      effect := RenameKey(key, c.id, renaming.value.name);
      if effect.Cancel? {
        renaming := None;
      }
    }

    /** A double click on the button of `c` starts renaming it from its current name. */
    method DoubleClick(c: Category)
      modifies this
      ensures renaming == Some(Renaming(c.id, c.name))
      ensures contextMenu == old(contextMenu)
    {
      renaming := Some(Renaming(c.id, c.name));
    }

    /** The "Редагувати" menu item of `c` does the same as a double click. */
    method EditFromMenu(c: Category)
      requires ShowsMenu(contextMenu, c)
      modifies this
      ensures renaming == Some(Renaming(c.id, c.name))
      ensures contextMenu == old(contextMenu)
    {
      renaming := Some(Renaming(c.id, c.name));
    }

    /** A right click on the button of `c` opens the shared menu for `c`, closing any other. */
    method OpenContextMenu(c: Category, innerHeight: real, rect: Rect)
      modifies this
      ensures contextMenu == Some(ContextMenu(c.id, PlaceMenu(innerHeight, rect), rect))
      ensures ShowsMenu(contextMenu, c)
      ensures forall d: Category :: d.id != c.id ==> !ShowsMenu(contextMenu, d)
      ensures renaming == old(renaming)
    {
      contextMenu := Some(ContextMenu(c.id, PlaceMenu(innerHeight, rect), rect));
    }

    /** Any click in the document closes the menu. */
    method DocumentClick()
      modifies this
      ensures contextMenu.None?
      ensures renaming == old(renaming)
    {
      contextMenu := None;
    }
  }
}
