/**
 * The admin sidebar: a fixed list of sample employee names filtered by a
 * case-insensitive search, a collapse toggle that sets the width, and one
 * link per shown name numbered by its position in the filtered list.
 */
module Sidebar {
  import opened Text

  const SampleNames: seq<string> :=
    ["Alice", "Bob", "Charlie", "David", "Eve", "Frank", "Grace", "Hannah"]

  const CollapsedWidth := 80
  const ExpandedWidth := 288

  /** The filter's test: the lower-cased name contains the lower-cased search, so an empty search matches every name. */
  function Matches(name: string, search: string): (r: bool)
    ensures r <==> exists i :: OccursAt(Lower(search), Lower(name), i)
    ensures search == "" ==> r
  {
    Includes(Lower(name), Lower(search))
  }

  /** `r` is obtained from `s` by deleting some elements, keeping the order of the rest. */
  predicate IsSubsequence<T(==)>(r: seq<T>, s: seq<T>)
    decreases |s|
  {
    if r == [] then true
    else if s == [] then false
    else if r[0] == s[0] then IsSubsequence(r[1..], s[1..])
    else IsSubsequence(r, s[1..])
  }

  /**
   * `sampleNames.filter(name => name.toLowerCase().includes(search.toLowerCase()))`:
   * exactly the matching names, in their original order.
   */
  function FilterNames(names: seq<string>, search: string): (r: seq<string>)
    ensures forall x :: x in r <==> x in names && Matches(x, search)
    ensures forall i :: 0 <= i < |r| ==> Matches(r[i], search)
    ensures IsSubsequence(r, names)
    ensures |r| <= |names|
    decreases |names|
  {
    if names == [] then []
    else
      var rest := FilterNames(names[1..], search);
      if Matches(names[0], search) then
        assert ([names[0]] + rest)[1..] == rest;
        [names[0]] + rest
      else rest
  }

  /** Filtering distributes over concatenation, so every name is judged on its own. */
  lemma {:induction false} FilterNamesAppend(a: seq<string>, b: seq<string>, search: string)
    ensures FilterNames(a + b, search) == FilterNames(a, search) + FilterNames(b, search)
    decreases |a|
  {
    if a != [] {
      assert (a + b)[1..] == a[1..] + b;
      FilterNamesAppend(a[1..], b, search);
    } else {
      assert a + b == b;
    }
  }

  /** An empty search matches every name. */
  lemma {:induction false} EmptySearchKeepsAll(names: seq<string>)
    ensures FilterNames(names, "") == names
    decreases |names|
  {
    if names != [] {
      assert Lower("") == "";
      IncludesEmpty(Lower(names[0]));
      EmptySearchKeepsAll(names[1..]);
    }
  }

  /** With no search text all eight sample names are shown. */
  lemma EmptySearchShowsEveryone()
    ensures FilterNames(SampleNames, "") == SampleNames
    ensures |FilterNames(SampleNames, "")| == 8
  {
    EmptySearchKeepsAll(SampleNames);
  }

  /** The local state of the sidebar; the setters replace it wholesale. */
  datatype State = State(search: string, collapsed: bool)

  const Initial := State("", false)

  /** The arrow button: `setCollapsed(!collapsed)`, leaving the search text alone. */
  function ToggleCollapsed(s: State): (t: State)
    ensures t.collapsed != s.collapsed && t.search == s.search
  {
    s.(collapsed := !s.collapsed)
  }

  lemma ToggleCollapsedTwice(s: State)
    ensures ToggleCollapsed(ToggleCollapsed(s)) == s
  {
  }

  /** The sidebar width in pixels: narrow when collapsed, wide otherwise. */
  function Width(s: State): (w: int)
    ensures w == CollapsedWidth <==> s.collapsed
    ensures w == ExpandedWidth <==> !s.collapsed
  {
    if s.collapsed then CollapsedWidth else ExpandedWidth
  }

  /** Every click on the arrow switches between the two widths. */
  lemma ToggleSwitchesWidth(s: State)
    ensures {Width(s), Width(ToggleCollapsed(s))} == {CollapsedWidth, ExpandedWidth}
  {
  }

  datatype Link = Link(name: string, href: string)

  const EmployeePrefix := "/employee/"

  function EmployeeHref(k: nat): string {
    EmployeePrefix + NatToString(k + 1)
  }

  /**
   * `filteredNames.map((name, index) => <Link href={`/employee/${index + 1}`}>)`:
   * one link per shown name, numbered from 1 by its position among the
   * shown names, so the numbers are exactly 1..|shown| and pairwise distinct.
   */
  function Links(shown: seq<string>): (ls: seq<Link>)
    ensures |ls| == |shown|
    ensures forall k :: 0 <= k < |ls| ==> ls[k].name == shown[k]
    ensures forall k :: 0 <= k < |ls| ==>
      IsPrefix(EmployeePrefix, ls[k].href) && AllDigits(ls[k].href[|EmployeePrefix|..]) &&
      ParseDigits(ls[k].href[|EmployeePrefix|..]) == k + 1
  {
    var ls := seq(|shown|, k requires 0 <= k < |shown| => Link(shown[k], EmployeeHref(k)));
    forall k | 0 <= k < |ls|
      ensures IsPrefix(EmployeePrefix, ls[k].href) && AllDigits(ls[k].href[|EmployeePrefix|..]) &&
      ParseDigits(ls[k].href[|EmployeePrefix|..]) == k + 1
    {
      HrefNumber(k);
    }
    ls
  }

  lemma HrefNumber(k: nat)
    ensures IsPrefix(EmployeePrefix, EmployeeHref(k))
    ensures AllDigits(EmployeeHref(k)[|EmployeePrefix|..])
    ensures ParseDigits(EmployeeHref(k)[|EmployeePrefix|..]) == k + 1
  {
    var h := EmployeeHref(k);
    assert h[|EmployeePrefix|..] == NatToString(k + 1);
    ParseNatToString(k + 1);
  }

  /** No two shown names share a link. */
  lemma LinksDistinct(shown: seq<string>, i: nat, j: nat)
    requires i < j < |shown|
    ensures Links(shown)[i].href != Links(shown)[j].href
  {
    var ls := Links(shown);
    assert ParseDigits(ls[i].href[|EmployeePrefix|..]) == i + 1;
    assert ParseDigits(ls[j].href[|EmployeePrefix|..]) == j + 1;
  }

  /** What is rendered below the header: nothing when collapsed, else the links of the filtered names. */
  function ShownLinks(s: State): (ls: seq<Link>)
    ensures s.collapsed ==> ls == []
    ensures !s.collapsed ==> ls == Links(FilterNames(SampleNames, s.search))
  {
    if s.collapsed then [] else Links(FilterNames(SampleNames, s.search))
  }

  /** When first shown the sidebar is expanded and links every sample name, Alice first. */
  lemma InitialShowsEveryone()
    ensures Width(Initial) == ExpandedWidth
    ensures |ShownLinks(Initial)| == 8
    ensures ShownLinks(Initial)[0].name == "Alice"
  {
    EmptySearchShowsEveryone();
  }

  /**
   * When exactly one name matches, it alone is shown and it is linked as
   * employee 1, wherever it stands in the full list.
   */
  lemma {:induction false} OnlyMatch(before: seq<string>, x: string, after: seq<string>, search: string)
    requires forall n :: n in before ==> !Matches(n, search)
    requires forall n :: n in after ==> !Matches(n, search)
    requires Matches(x, search)
    ensures FilterNames(before + [x] + after, search) == [x]
    ensures Links(FilterNames(before + [x] + after, search))[0].href == "/employee/1"
  {
    FirstEmployeeHref();
    FilterNamesAppend(before, [x] + after, search);
    FilterNamesAppend([x], after, search);
    assert before + [x] + after == before + ([x] + after);
    assert FilterNames(before, search) == [];
    assert FilterNames(after, search) == [];
    assert FilterNames([x], search) == [x];
  }

  lemma FirstEmployeeHref()
    ensures EmployeeHref(0) == "/employee/1"
  {
    assert NatToString(1) == "1";
  }
}
