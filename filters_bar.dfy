/** The catalogue's filter panel (`FiltersBar.tsx`): toggling a genre,
    clearing every filter, whether any filter is active, and how a typed
    price becomes a number. */
module FiltersBar {
  import opened JsString
  import opened JsNumber
  import opened Store

  /** What the panel shows and changes. */
  datatype Panel = Panel(selectedGenres: seq<string>, minPrice: Float, maxPrice: Float)

  /** `handleGenreToggle`: a selected genre is removed (every copy of it),
      any other is appended at the end. */
  function Toggle(selected: seq<string>, id: string): (r: seq<string>)
    ensures id in r <==> id !in selected
    ensures forall g :: g != id ==> (g in r <==> g in selected)
  {
    if id in selected then Filter(selected, (g: string) => g != id) else selected + [id]
  }

  /** Filtering out `id` after appending it gives the filter of the
      original. */
  lemma FilterSnocDropped(s: seq<string>, id: string)
    ensures Filter(s + [id], (g: string) => g != id) == Filter(s, (g: string) => g != id)
  {
    assert (s + [id])[..|s|] == s;
  }

  /** A filter that keeps every element is the identity. */
  lemma {:induction false} FilterKeepsAll(s: seq<string>, id: string)
    requires id !in s
    ensures Filter(s, (g: string) => g != id) == s
  {
    if s != [] {
      var init := s[..|s| - 1];
      assert s == init + [s[|s| - 1]];
      assert s[|s| - 1] in s;
      FilterKeepsAll(init, id);
    }
  }

  /** The other genres keep their relative order: seen without `id`, the
      list is the same before and after the toggle. */
  lemma ToggleKeepsOthersInOrder(selected: seq<string>, id: string)
    ensures Filter(Toggle(selected, id), (g: string) => g != id) == Filter(selected, (g: string) => g != id)
  {
    if id in selected {
      FilterNoneLeft(selected, id);
    } else {
      FilterSnocDropped(selected, id);
    }
  }

  /** Filtering twice by the same test changes nothing the second time. */
  lemma FilterNoneLeft(s: seq<string>, id: string)
    ensures Filter(Filter(s, (g: string) => g != id), (g: string) => g != id) == Filter(s, (g: string) => g != id)
  {
    FilterKeepsAll(Filter(s, (g: string) => g != id), id);
  }

  /** Toggling a genre that is not selected twice gives back the original
      selection. */
  lemma ToggleTwiceRestores(selected: seq<string>, id: string)
    requires id !in selected
    ensures Toggle(Toggle(selected, id), id) == selected
  {
    assert id in selected + [id];
    FilterSnocDropped(selected, id);
    FilterKeepsAll(selected, id);
  }

  /** `hasActiveFilters`. */
  predicate HasActiveFilters(p: Panel) {
    |p.selectedGenres| > 0 || IsPositive(p.minPrice) || IsPositive(p.maxPrice)
  }

  /** `clearAllFilters`: no genre and both prices 0. */
  function ClearAll(p: Panel): (r: Panel)
    ensures !HasActiveFilters(r)
    ensures r.selectedGenres == [] && r.minPrice == Fin(0, 0) && r.maxPrice == Fin(0, 0)
  {
    Panel([], Fin(0, 0), Fin(0, 0))
  }

  /** `Number(text) || 0` on a price input: anything that is not a number,
      and the empty input, become 0. */
  function PriceInput(text: string): (x: Float)
    ensures !x.NaN?
    ensures NumberOf(text).NaN? ==> x == Fin(0, 0)
    ensures x == NumberOf(text) || x == Fin(0, 0)
    ensures IsPositive(x) <==> IsPositive(NumberOf(text))
  {
    var n := NumberOf(text);
    if Truthy(n) then n else Fin(0, 0)
  }

  /** A cleared or empty price input does not count as an active filter;
      a whole positive number typed in does. */
  lemma PriceInputActivity(text: string, n: nat)
    ensures Trim(text) == [] ==> !IsPositive(PriceInput(text))
    ensures text == NatToString(n) && n > 0 ==> IsPositive(PriceInput(text))
  {
    ParseFloatOfNatToString(n);
  }
}
