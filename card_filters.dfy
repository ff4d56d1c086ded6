/**
 * The filter buttons of the home page: a click marks that button alone as
 * active, sets the title for its filter, and re-orders the cards of the
 * grid by date, rating or use count, highest first.
 */
module CardFilters {
  import opened Base
  import opened Sorting

  /** A card's data attributes, already parsed: `data-date` as text, `data-rating`, `data-uses`. */
  datatype Card = Card(date: string, rating: real, uses: int)

  /** `filterTitles[filter]`; an unknown filter sets an empty title. */
  function FilterTitle(filter: string): (title: string)
    ensures filter !in {"latest", "top-rated", "most-used"} ==> title == ""
    ensures filter in {"latest", "top-rated", "most-used"} ==> title != ""
  {
    if filter == "latest" then "Últimas IAs Publicadas"
    else if filter == "top-rated" then "IAs Mejor Calificadas"
    else if filter == "most-used" then "IAs Más Usadas"
    else ""
  }

  function RatingKey(c: Card): real { c.rating }
  function UsesKey(c: Card): real { c.uses as real }

  /** The key the comparator subtracts for a filter; `time` parses `data-date`. */
  function CardKey(filter: string, time: string -> real): (k: Option<Card -> real>)
    ensures k.Some? <==> filter in {"latest", "top-rated", "most-used"}
  {
    if filter == "latest" then Some((c: Card) => time(c.date))
    else if filter == "top-rated" then Some(RatingKey)
    else if filter == "most-used" then Some(UsesKey)
    else None
  }

  /** The filter bar: one button per `data-filter` value, and the grid of cards. */
  class FilterBar {
    const filters: seq<string>
    var active: seq<bool>
    var title: string
    var cards: seq<Card>

    predicate Valid()
      reads this
    {
      |active| == |filters|
    }

    constructor (filters: seq<string>, cards: seq<Card>)
      ensures Valid() && this.filters == filters && this.cards == cards
      ensures forall k :: 0 <= k < |active| ==> !active[k]
    {
      this.filters := filters;
      this.cards := cards;
      title := "";
      active := seq(|filters|, _ => false);
    }

    /**
     * A click on button `i`: that button alone is active, the title is
     * the filter's, and the cards are the same ones, now highest first by
     * the filter's key. An unknown filter's comparator says every pair is
     * equal, so the stable sort keeps the order.
     */
    method Click(i: nat, time: string -> real)
      requires Valid() && i < |filters|
      modifies this`active, this`title, this`cards
      ensures Valid()
      ensures forall k :: 0 <= k < |active| ==> (active[k] <==> k == i)
      ensures title == FilterTitle(filters[i])
      ensures multiset(cards) == multiset(old(cards))
      ensures CardKey(filters[i], time).Some? ==> SortedDesc(cards, CardKey(filters[i], time).value)
      ensures CardKey(filters[i], time).None? ==> cards == old(cards)
    {
      active := seq(|filters|, k => k == i);
      var filter := filters[i];
      title := FilterTitle(filter);
      var key := CardKey(filter, time);
      if key.Some? {
        cards := SortedCopy(cards, key.value);
      }
    }

    /**
     * On load the first "most-used" button, if there is one, is clicked:
     * it alone ends active.
     */
    method ApplyDefault(time: string -> real)
      requires Valid()
      modifies this`active, this`title, this`cards
      ensures Valid()
      ensures multiset(cards) == multiset(old(cards))
      ensures "most-used" in filters ==> SortedDesc(cards, UsesKey) && title == "IAs Más Usadas"
      ensures "most-used" in filters ==>
        exists i :: 0 <= i < |filters| && filters[i] == "most-used"
          && (forall k :: 0 <= k < i ==> filters[k] != "most-used")
          && (forall k :: 0 <= k < |active| ==> (active[k] <==> k == i))
      ensures "most-used" !in filters ==> unchanged(this)
    {
      var i := 0;
      while i < |filters| && filters[i] != "most-used"
        invariant 0 <= i <= |filters|
        invariant forall k :: 0 <= k < i ==> filters[k] != "most-used"
      {
        i := i + 1;
      }
      if i < |filters| {
        Click(i, time);
      }
    }
  }
}
