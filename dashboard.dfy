/** The listing page of `src/pages/Dashboard.tsx`: the filter state it owns
    and passes to the sidebar and the grid, and the category multi-select, an
    ordered list that the handlers keep free of repeats. */
module Dashboard {
  import opened Collections
  import Sidebar

  /** The list filtered to every entry other than `c`, in order. */
  function Without(s: seq<string>, c: string): (r: seq<string>)
    ensures c !in r
    ensures |r| <= |s|
    ensures forall x :: x != c ==> (x in r <==> x in s)
  {
    if s == [] then []
    else if s[0] == c then Without(s[1..], c)
    else [s[0]] + Without(s[1..], c)
  }

  /** The filter works entry by entry. */
  lemma {:induction false} WithoutAppend(a: seq<string>, b: seq<string>, c: string)
    ensures Without(a + b, c) == Without(a, c) + Without(b, c)
  {
    if a == [] {
      assert a + b == b;
    } else {
      assert (a + b)[0] == a[0] && (a + b)[1..] == a[1..] + b;
      WithoutAppend(a[1..], b, c);
    }
  }

  /** Removing a value that is not there changes nothing. */
  lemma {:induction false} WithoutAbsent(s: seq<string>, c: string)
    requires c !in s
    ensures Without(s, c) == s
  {
    if s != [] {
      WithoutAbsent(s[1..], c);
    }
  }

  /** Removing twice is removing once. */
  lemma WithoutIdempotent(s: seq<string>, c: string)
    ensures Without(Without(s, c), c) == Without(s, c)
  {
    WithoutAbsent(Without(s, c), c);
  }

  /** In a list without repeats, removing the entry at `i` keeps all the
      others in their order. */
  lemma WithoutAt(s: seq<string>, i: int)
    requires NoDuplicates(s) && 0 <= i < |s|
    ensures Without(s, s[i]) == s[..i] + s[i + 1..]
  {
    var c := s[i];
    assert s == s[..i] + [c] + s[i + 1..];
    assert c !in s[..i];
    assert c !in s[i + 1..];
    WithoutAppend(s[..i] + [c], s[i + 1..], c);
    WithoutAppend(s[..i], [c], c);
    WithoutAbsent(s[..i], c);
    WithoutAbsent(s[i + 1..], c);
  }

  lemma {:induction false} WithoutKeepsNoDuplicates(s: seq<string>, c: string)
    requires NoDuplicates(s)
    ensures NoDuplicates(Without(s, c))
  {
    if s != [] {
      WithoutKeepsNoDuplicates(s[1..], c);
      assert s[0] !in s[1..];
    }
  }

  /** `handleCategoryToggle`'s updater: a selected category is removed, any
      other one is added at the end. */
  function Toggled(s: seq<string>, c: string): (r: seq<string>)
    ensures c in r <==> c !in s
    ensures forall x :: x != c ==> (x in r <==> x in s)
    ensures c !in s ==> r == s + [c]
  {
    if c in s then Without(s, c) else s + [c]
  }

  /** Toggling a category on and off again gives back the list. */
  lemma ToggleAbsentTwice(s: seq<string>, c: string)
    requires c !in s
    ensures Toggled(Toggled(s, c), c) == s
  {
    WithoutAppend(s, [c], c);
    WithoutAbsent(s, c);
  }

  lemma ToggledKeepsNoDuplicates(s: seq<string>, c: string)
    requires NoDuplicates(s)
    ensures NoDuplicates(Toggled(s, c))
  {
    if c in s {
      WithoutKeepsNoDuplicates(s, c);
    }
  }

  /** One user action on the multi-select. */
  datatype CategoryOp = Toggle(category: string) | Remove(category: string) | Clear

  function Step(s: seq<string>, op: CategoryOp): seq<string> {
    match op
    case Toggle(c) => Toggled(s, c)
    case Remove(c) => Without(s, c)
    case Clear => []
  }

  /** The selection after a run of actions, from the initial empty one. */
  function Run(ops: seq<CategoryOp>): seq<string> {
    if ops == [] then [] else Step(Run(ops[..|ops| - 1]), ops[|ops| - 1])
  }

  /** No run of actions ever selects a category twice. */
  lemma {:induction false} RunHasNoDuplicates(ops: seq<CategoryOp>)
    ensures NoDuplicates(Run(ops))
  {
    if ops != [] {
      var s := Run(ops[..|ops| - 1]);
      RunHasNoDuplicates(ops[..|ops| - 1]);
      match ops[|ops| - 1]
      case Toggle(c) => ToggledKeepsNoDuplicates(s, c);
      case Remove(c) => WithoutKeepsNoDuplicates(s, c);
      case Clear =>
    }
  }

  /** The page's filter state. */
  class DashboardPage {
    var selectedCategories: seq<string>
    var selectedAiModel: string
    var priceRange: Sidebar.PriceRange
    var sortBy: string
    var searchQuery: string

    predicate Valid()
      reads this
    {
      NoDuplicates(selectedCategories)
    }

    constructor ()
      ensures Valid()
      ensures selectedCategories == [] && selectedAiModel == "All"
      ensures priceRange == Sidebar.PriceRange(0, 100) && Sidebar.WellFormed(priceRange)
      ensures sortBy == "newest" && searchQuery == ""
    {
      selectedCategories := [];
      selectedAiModel := "All";
      priceRange := Sidebar.PriceRange(0, 100);
      sortBy := "newest";
      searchQuery := "";
    }

    method HandleCategoryToggle(c: string)
      requires Valid()
      modifies this
      ensures Valid()
      ensures c in old(selectedCategories) ==>
        selectedCategories == Without(old(selectedCategories), c)
      ensures c !in old(selectedCategories) ==> selectedCategories == old(selectedCategories) + [c]
      ensures selectedAiModel == old(selectedAiModel) && priceRange == old(priceRange)
      ensures sortBy == old(sortBy) && searchQuery == old(searchQuery)
    {
      ToggledKeepsNoDuplicates(selectedCategories, c);
      selectedCategories := Toggled(selectedCategories, c);
    }

    method RemoveCategory(c: string)
      requires Valid()
      modifies this
      ensures Valid()
      ensures selectedCategories == Without(old(selectedCategories), c)
      ensures forall i :: 0 <= i < |old(selectedCategories)| && old(selectedCategories)[i] == c ==>
        selectedCategories == old(selectedCategories)[..i] + old(selectedCategories)[i + 1..]
      ensures selectedAiModel == old(selectedAiModel) && priceRange == old(priceRange)
      ensures sortBy == old(sortBy) && searchQuery == old(searchQuery)
    {
      WithoutKeepsNoDuplicates(selectedCategories, c);
      forall i | 0 <= i < |selectedCategories| && selectedCategories[i] == c
        ensures Without(selectedCategories, c) == selectedCategories[..i] + selectedCategories[i + 1..]
      {
        WithoutAt(selectedCategories, i);
      }
      selectedCategories := Without(selectedCategories, c);
    }

    method ClearSelectedCategories()
      modifies this
      ensures Valid() && selectedCategories == []
      ensures selectedAiModel == old(selectedAiModel) && priceRange == old(priceRange)
      ensures sortBy == old(sortBy) && searchQuery == old(searchQuery)
    {
      selectedCategories := [];
    }

    /** The sidebar's model callback. */
    method SetSelectedAiModel(model: string)
      modifies this
      ensures selectedAiModel == model
      ensures selectedCategories == old(selectedCategories) && priceRange == old(priceRange)
      ensures sortBy == old(sortBy) && searchQuery == old(searchQuery)
    {
      selectedAiModel := model;
    }

    /** The sidebar's price callback; fed by the sidebar's handlers it keeps
        the range well formed. */
    method SetPriceRange(range: Sidebar.PriceRange)
      modifies this
      ensures priceRange == range
      ensures selectedCategories == old(selectedCategories) && selectedAiModel == old(selectedAiModel)
      ensures sortBy == old(sortBy) && searchQuery == old(searchQuery)
    {
      priceRange := range;
    }

    /** The sidebar's sort callback. */
    method SetSortBy(sort: string)
      modifies this
      ensures sortBy == sort
      ensures selectedCategories == old(selectedCategories) && selectedAiModel == old(selectedAiModel)
      ensures priceRange == old(priceRange) && searchQuery == old(searchQuery)
    {
      sortBy := sort;
    }

    /** The search box. */
    method SetSearchQuery(q: string)
      modifies this
      ensures searchQuery == q
      ensures selectedCategories == old(selectedCategories) && selectedAiModel == old(selectedAiModel)
      ensures priceRange == old(priceRange) && sortBy == old(sortBy)
    {
      searchQuery := q;
    }
  }
}
