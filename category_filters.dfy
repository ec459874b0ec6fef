/**
 * The board's category panel: the list of selected category ids that
 * filters the operations, and the input that adds a new category.
 */
module CategoryFilters {
  import opened Text
  import opened CategoryItem

  predicate Distinct(s: seq<int>) {
    forall i, j :: 0 <= i < j < |s| ==> s[i] != s[j]
  }

  /** `filter(cid => cid !== id)`: every occurrence of `id` dropped, the rest in order. */
  function RemoveAll(s: seq<int>, id: int): (r: seq<int>)
    ensures id !in r
    ensures forall x :: x != id ==> (x in r <==> x in s)
    ensures |r| <= |s|
  {
    if s == [] then []
    else if s[0] == id then RemoveAll(s[1..], id)
    else [s[0]] + RemoveAll(s[1..], id)
  }

  /** Removal works piece by piece, so the remaining ids keep their relative order. */
  lemma {:induction false} RemoveAllAppend(a: seq<int>, b: seq<int>, id: int)
    ensures RemoveAll(a + b, id) == RemoveAll(a, id) + RemoveAll(b, id)
    decreases |a|
  {
    if a != [] {
      assert (a + b)[1..] == a[1..] + b;
      RemoveAllAppend(a[1..], b, id);
    } else {
      assert a + b == b;
    }
  }

  /** A list without `id` is left exactly as it was. */
  lemma {:induction false} RemoveAllAbsent(s: seq<int>, id: int)
    requires id !in s
    ensures RemoveAll(s, id) == s
    decreases |s|
  {
    if s != [] {
      assert s == [s[0]] + s[1..];
      RemoveAllAbsent(s[1..], id);
    }
  }

  lemma {:induction false} RemoveAllDistinct(s: seq<int>, id: int)
    requires Distinct(s)
    ensures Distinct(RemoveAll(s, id))
    decreases |s|
  {
    if s != [] {
      assert Distinct(s[1..]) by {
        forall i, j | 0 <= i < j < |s| - 1 ensures s[1..][i] != s[1..][j] {
          assert s[1..][i] == s[i + 1] && s[1..][j] == s[j + 1];
        }
      }
      RemoveAllDistinct(s[1..], id);
      if s[0] != id {
        var t := RemoveAll(s[1..], id);
        assert s[0] !in s[1..];
        assert s[0] !in t;
        var r := [s[0]] + t;
        forall i, j | 0 <= i < j < |r| ensures r[i] != r[j] {
          if i == 0 {
            assert r[j] == t[j - 1];
          } else {
            assert r[i] == t[i - 1] && r[j] == t[j - 1];
          }
        }
      }
    }
  }

  /**
   * `toggleCategoryFilter(id)`: the id's membership flips and every other
   * id's membership stays; a present id is removed everywhere, an absent
   * one is appended at the end.
   */
  function Toggle(filter: seq<int>, id: int): (r: seq<int>)
    ensures id in r <==> id !in filter
    ensures forall x :: x != id ==> (x in r <==> x in filter)
    ensures id !in filter ==> r == filter + [id]
    ensures id in filter ==> r == RemoveAll(filter, id)
  {
    if id in filter then RemoveAll(filter, id) else filter + [id]
  }

  /** A filter list without repeated ids keeps that property under every toggle. */
  lemma ToggleKeepsDistinct(filter: seq<int>, id: int)
    requires Distinct(filter)
    ensures Distinct(Toggle(filter, id))
  {
    if id in filter {
      RemoveAllDistinct(filter, id);
    } else {
      var r := filter + [id];
      forall i, j | 0 <= i < j < |r| ensures r[i] != r[j] {
        if j == |filter| {
          assert r[i] == filter[i];
        } else {
          assert r[i] == filter[i] && r[j] == filter[j];
        }
      }
    }
  }

  /** Selecting an unselected category and deselecting it again restores the list. */
  lemma ToggleTwice(filter: seq<int>, id: int)
    requires id !in filter
    ensures Toggle(Toggle(filter, id), id) == filter
  {
    RemoveAllAppend(filter, [id], id);
    RemoveAllAbsent(filter, id);
    assert RemoveAll([id], id) == [];
  }

  /** A category name is already taken when it equals an existing one up to case. */
  predicate NameExists(categories: seq<Category>, name: string) {
    exists c :: c in categories && Lower(c.name) == Lower(name)
  }

  datatype AddEffect =
    | Submit(name: string)   // `submitNewCategory(name)`
    | Close                  // adding mode ends and the typed name is cleared
    | NoOp

  /**
   * The add-category input's key handler: Enter submits the trimmed text
   * when it is not blank and no existing name equals it up to case (the
   * existing names are compared untrimmed); Escape closes; anything else,
   * including Enter on a blank or taken name, does nothing.
   */
  function AddCategoryKey(key: string, typed: string, categories: seq<Category>): (e: AddEffect)
    ensures e.Submit? <==> key == "Enter" && !AllWhitespace(typed) && !NameExists(categories, Trim(typed))
    ensures e.Submit? ==> e.name == Trim(typed)
    ensures e.Close? <==> key == "Escape"
  {
    var trimmed := Trim(typed);
    if key == "Enter" && trimmed != "" then
      if !NameExists(categories, trimmed) then Submit(trimmed) else NoOp
    else if key == "Escape" then Close
    else NoOp
  }

  /**
   * Existing names are not trimmed: an existing " Food" does not block
   * typing "Food", because only the typed text is trimmed.
   */
  lemma ExistingNamesAreNotTrimmed(id: int, name: string)
    requires NoBlankEnds(name)
    ensures AddCategoryKey("Enter", name, [Category(id, " " + name)]) == Submit(name)
  {
    TrimUntouched(name);
    assert |Lower(" " + name)| != |Lower(name)|;
  }

  /** The add-category input's state, owned by the page. */
  class AddCategory {
    var adding: bool
    var newName: string

    constructor ()
      ensures !adding && newName == ""
    {
      adding := false;
      newName := "";
    }

    /** The "+" icon opens adding mode. */
    method Open()
      modifies this
      ensures adding && newName == old(newName)
    {
      adding := true;
    }

    method Input(value: string)
      requires adding
      modifies this
      ensures adding && newName == value
    {
      newName := value;
    }

    /** A key press: Escape closes and clears; every other outcome leaves the state as it was. */
    method KeyDown(key: string, categories: seq<Category>) returns (effect: AddEffect)
      requires adding
      modifies this
      ensures effect == AddCategoryKey(key, old(newName), categories)
      ensures adding <==> !effect.Close?
      ensures newName == if effect.Close? then "" else old(newName)
    {
      var typed := newName;
      effect := AddCategoryKey(key, typed, categories);
      if key == "Escape" {
        adding, newName := false, "";
      }
    }
  }
}
