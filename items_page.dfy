/**
 * The public listing page (src/pages/ItemsPage.tsx): client-side filtering of
 * the loaded list by category, age group, gender and a case-insensitive
 * search over title and description.
 */
module ItemsPage {
  import opened Wrappers
  import opened ItemTypes
  import opened Sequences
  import opened Queries

  /** The four filter inputs; the empty string means "no filter". */
  datatype Filters = Filters(searchTerm: string, category: string, ageGroup: string, gender: string)

  const NoFilters := Filters("", "", "", "")

  /** ASCII case folding, standing in for `String.prototype.toLowerCase`. */
  function LowerChar(c: char): char {
    if 'A' <= c <= 'Z' then (c as int + 32) as char else c
  }

  function Lower(s: string): string {
    seq(|s|, i requires 0 <= i < |s| => LowerChar(s[i]))
  }

  /** `hay.includes(needle)`: `needle` occurs in `hay` at some position. */
  predicate Includes(hay: string, needle: string) {
    exists i :: 0 <= i <= |hay| && needle <= hay[i..]
  }

  predicate MatchesCategory(item: Item, f: Filters) {
    f.category == "" || CategoryCode(item.category) == f.category
  }

  predicate MatchesAgeGroup(item: Item, f: Filters) {
    f.ageGroup == "" || AgeGroupCode(item.ageGroup) == f.ageGroup
  }

  predicate MatchesGender(item: Item, f: Filters) {
    f.gender == "" || GenderCode(item.gender) == f.gender
  }

  predicate MatchesSearch(item: Item, term: string) {
    term == ""
    || Includes(Lower(item.title), Lower(term))
    || Includes(Lower(item.description), Lower(term))
  }

  predicate Matches(item: Item, f: Filters) {
    MatchesCategory(item, f) && MatchesAgeGroup(item, f) && MatchesGender(item, f) && MatchesSearch(item, f.searchTerm)
  }

  /** `items.filter(...)` with the conjunction of the four filters. */
  function FilteredItems(items: seq<Item>, f: Filters): (r: seq<Item>)
    ensures |r| <= |items|
    ensures forall x :: x in r <==> x in items && Matches(x, f)
    ensures forall x :: multiset(r)[x] == if Matches(x, f) then multiset(items)[x] else 0
  {
    Select(items, (x: Item) => Matches(x, f))
  }

  /** The page's category filter after reading the URL: set only by a present, non-empty parameter. */
  function CategoryFromUrl(param: Option<string>, current: string): (r: string)
    ensures param.Some? && param.value != "" ==> r == param.value
    ensures param.None? || param.value == "" ==> r == current
  {
    if param.Some? && param.value != "" then param.value else current
  }

  /**
   * An item is kept iff every non-empty filter matches it, and then a
   * non-empty category, age-group or gender filter holds exactly its value.
   */
  lemma FilteredItemsMembership(items: seq<Item>, f: Filters, x: Item)
    ensures x in FilteredItems(items, f) <==>
      && x in items
      && (f.category == "" || CategoryCode(x.category) == f.category)
      && (f.ageGroup == "" || AgeGroupCode(x.ageGroup) == f.ageGroup)
      && (f.gender == "" || GenderCode(x.gender) == f.gender)
      && (f.searchTerm == ""
          || Includes(Lower(x.title), Lower(f.searchTerm))
          || Includes(Lower(x.description), Lower(f.searchTerm)))
  {
  }

  /** The filtered list is the loaded list with some items dropped, in the same order. */
  lemma FilteredIsSubsequence(items: seq<Item>, f: Filters)
    ensures IsSubsequence(FilteredItems(items, f), items)
  {
    SelectIsSubsequence(items, (x: Item) => Matches(x, f));
  }

  /** With every filter empty, the whole loaded list is shown. */
  lemma NoFiltersKeepAll(items: seq<Item>)
    ensures FilteredItems(items, NoFilters) == items
  {
    SelectAll(items, (x: Item) => Matches(x, NoFilters));
  }

  /** `strong` keeps every non-empty filter of `weak` and may set more. */
  predicate Refines(strong: Filters, weak: Filters) {
    && (weak.searchTerm != "" ==> strong.searchTerm == weak.searchTerm)
    && (weak.category != "" ==> strong.category == weak.category)
    && (weak.ageGroup != "" ==> strong.ageGroup == weak.ageGroup)
    && (weak.gender != "" ==> strong.gender == weak.gender)
  }

  /** Setting more filters never adds items: the result is a subsequence of the one with fewer filters. */
  lemma MoreFiltersFewerItems(items: seq<Item>, strong: Filters, weak: Filters)
    requires Refines(strong, weak)
    ensures IsSubsequence(FilteredItems(items, strong), FilteredItems(items, weak))
  {
    SelectStronger(items, (x: Item) => Matches(x, strong), (x: Item) => Matches(x, weak));
  }

  /** The search ignores case: terms with the same lower-case form keep the same items. */
  lemma SearchIgnoresCase(items: seq<Item>, f: Filters, term: string)
    requires Lower(term) == Lower(f.searchTerm)
    ensures FilteredItems(items, f.(searchTerm := term)) == FilteredItems(items, f)
  {
    var g := f.(searchTerm := term);
    assert |Lower(term)| == |term| && |Lower(f.searchTerm)| == |f.searchTerm|;
    forall x | x in items
      ensures Matches(x, g) == Matches(x, f)
    {
      assert (term == "") == (f.searchTerm == "");
      assert MatchesSearch(x, term) == MatchesSearch(x, f.searchTerm);
    }
    SelectCongruent(items, (x: Item) => Matches(x, g), (x: Item) => Matches(x, f));
  }

  /** A category taken from the URL restricts the listing to items of exactly that category. */
  lemma UrlCategoryRestricts(items: seq<Item>, f: Filters, param: string)
    requires param != ""
    ensures forall x :: x in FilteredItems(items, f.(category := CategoryFromUrl(Some(param), f.category))) ==>
      CategoryCode(x.category) == param
  {
  }

  /** A URL category that names no category leaves nothing to show. */
  lemma UnknownCategoryShowsNothing(items: seq<Item>, f: Filters)
    requires f.category != "" && ParseCategory(f.category).None?
    ensures FilteredItems(items, f) == []
  {
    var r := FilteredItems(items, f);
    if r != [] {
      assert r[0] in r;
      CodesRoundTrip(r[0].category, Baby, Boy, New);
    }
  }

  /**
   * An example: A (clothing, available), B (toy, given away) and
   * C (toy, available), created in that order, list as [C, A]; the toy filter
   * then leaves [C].
   */
  lemma ListingExample(a: Item, b: Item, c: Item)
    requires a.category == Clothing && a.isAvailable && a.createdAt == 1
    requires b.category == Toy && !b.isAvailable && b.createdAt == 2
    requires c.category == Toy && c.isAvailable && c.createdAt == 3
    ensures AvailableQuery([a, b, c]) == [c, a]
    ensures FilteredItems(AvailableQuery([a, b, c]), NoFilters.(category := "toy")) == [c]
  {
    ExampleSelection(a, b, c);
    ExampleSort(a, c);
    ExampleFilter(a, c);
  }

  lemma ExampleSelection(a: Item, b: Item, c: Item)
    requires a.isAvailable && !b.isAvailable && c.isAvailable
    ensures Select([a, b, c], (x: Item) => x.isAvailable) == [a, c]
  {
    var avail := (x: Item) => x.isAvailable;
    assert [a, b, c][1..] == [b, c] && [b, c][1..] == [c] && [c][1..] == [];
    assert Select([c], avail) == [c];
    assert Select([b, c], avail) == [c];
  }

  lemma ExampleSort(a: Item, c: Item)
    requires a.createdAt == 1 && c.createdAt == 3
    ensures SortNewestFirst([a, c]) == [c, a]
  {
    assert [a, c][1..] == [c] && [c][1..] == [];
    assert SortNewestFirst([c]) == InsertNewest(c, []) == [c];
    assert InsertNewest(a, [c]) == [c] + InsertNewest(a, []) == [c, a];
  }

  lemma ExampleFilter(a: Item, c: Item)
    requires a.category == Clothing && c.category == Toy
    ensures FilteredItems([c, a], NoFilters.(category := "toy")) == [c]
  {
    var g := NoFilters.(category := "toy");
    var toy := (x: Item) => Matches(x, g);
    assert [c, a][1..] == [a] && [a][1..] == [];
    assert Select([a], toy) == [];
    assert Select([c, a], toy) == [c];
  }
}
