/**
 * The three read-only story handlers: list all, search and filter by date.
 * Each is one database query scoped to the caller and sorted with
 * `isFavourite: -1`, so favourites come first. The sort is not stable, so
 * the only ordering promised is that favourites precede non-favourites.
 */
module Queries {
  import opened Records
  import opened Http
  import opened Seqs
  import opened Text

  /** What a query asks of a story beyond belonging to the caller. */
  datatype Criterion =
    | Everything
    | Mentions(query: string)
    | VisitedBetween(start: int, end: int)

  predicate Selects(c: Criterion, s: Story)
  {
    match c
    case Everything => true
    case Mentions(q) =>
      ContainsIgnoreCase(s.title, q) || ContainsIgnoreCase(s.story, q) ||
      ContainsIgnoreCase(s.visitedLocation, q)
    case VisitedBetween(start, end) => start <= s.visitedDate <= end
  }

  /** Every favourite comes before every non-favourite. */
  ghost predicate FavouritesFirst(r: seq<Story>)
  {
    forall i, j :: 0 <= i < j < |r| && r[j].isFavourite ==> r[i].isFavourite
  }

  /**
   * `r` is an answer to criterion `c` for the caller: a permutation of exactly
   * the caller's rows that `c` selects, favourites first.
   */
  ghost predicate IsListing(r: seq<Story>, rows: seq<Story>, userId: Id, c: Criterion)
  {
    FavouritesFirst(r) &&
    forall x :: multiset(r)[x] == if x.userId == userId && Selects(c, x) then multiset(rows)[x] else 0
  }

  /** `.sort({ isFavourite: -1 })`: favourites first, nothing added or lost. */
  function SortByFavourite(rows: seq<Story>): (r: seq<Story>)
    ensures FavouritesFirst(r)
    ensures multiset(r) == multiset(rows)
  {
    var favourites := Filter(rows, (s: Story) => s.isFavourite);
    var others := Filter(rows, (s: Story) => !s.isFavourite);
    FilterCounts(rows, (s: Story) => s.isFavourite);
    FilterCounts(rows, (s: Story) => !s.isFavourite);
    assert forall i :: 0 <= i < |favourites| ==> favourites[i] in favourites;
    assert forall i :: 0 <= i < |others| ==> others[i] in others;
    assert multiset(favourites + others) == multiset(rows) by {
      forall x ensures multiset(favourites + others)[x] == multiset(rows)[x] {
      }
    }
    favourites + others
  }

  /** `find({ userId, ...c }).sort({ isFavourite: -1 })`. */
  function Query(rows: seq<Story>, userId: Id, c: Criterion): (r: seq<Story>)
    ensures IsListing(r, rows, userId, c)
  {
    var keep := (s: Story) => s.userId == userId && Selects(c, s);
    FilterCounts(rows, keep);
    SortByFavourite(Filter(rows, keep))
  }

  /** GET /get-all-stories. */
  function GetAllStories(rows: seq<Story>, userId: Id): (r: Response)
    ensures r.status == 200 && !r.error && r.payload.Stories?
    ensures IsListing(r.payload.stories, rows, userId, Everything)
  {
    Response(200, false, "", Stories(Query(rows, userId, Everything)))
  }

  const QueryRequired: string := "Query is required"

  /** GET /search?query=…; a missing or empty query is answered 404. */
  function Search(rows: seq<Story>, userId: Id, query: string): (r: Response)
    ensures r.status == 404 <==> query == ""
    ensures query == "" ==> r == Fail(404, QueryRequired)
    ensures query != "" ==>
      r.status == 200 && !r.error && r.payload.Stories? &&
      IsListing(r.payload.stories, rows, userId, Mentions(query))
  {
    if query == "" then Fail(404, QueryRequired)
    else Response(200, false, "", Stories(Query(rows, userId, Mentions(query))))
  }

  /** GET /travel-stories/filter?startDate=…&endDate=…; both bounds are inclusive. */
  function FilterByDate(rows: seq<Story>, userId: Id, start: int, end: int): (r: Response)
    ensures r.status == 200 && !r.error && r.payload.Stories?
    ensures IsListing(r.payload.stories, rows, userId, VisitedBetween(start, end))
  {
    Response(200, false, "", Stories(Query(rows, userId, VisitedBetween(start, end))))
  }

  /**
   * A story is in the search answer exactly when it is the caller's and the
   * query occurs, up to case, in its title, its text or its location.
   */
  lemma SearchFinds(rows: seq<Story>, userId: Id, query: string, x: Story)
    requires query != ""
    ensures x in Search(rows, userId, query).payload.stories <==>
      x in rows && x.userId == userId &&
      ((exists i :: OccursAt(x.title, query, i)) ||
       (exists i :: OccursAt(x.story, query, i)) ||
       (exists i :: OccursAt(x.visitedLocation, query, i)))
  {
    ContainsIgnoreCaseSpec(x.title, query);
    ContainsIgnoreCaseSpec(x.story, query);
    ContainsIgnoreCaseSpec(x.visitedLocation, query);
    var r := Search(rows, userId, query).payload.stories;
    assert x in r <==> multiset(r)[x] > 0;
    assert x in rows <==> multiset(rows)[x] > 0;
  }

  /** No listing ever shows another user's story. */
  lemma ListingsAreOwnerScoped(rows: seq<Story>, userId: Id, c: Criterion, x: Story)
    requires x in Query(rows, userId, c)
    ensures x.userId == userId && x in rows
  {
    var r := Query(rows, userId, c);
    assert multiset(r)[x] > 0;
  }

  /** When the caller has a favourite the query selects, the answer starts with a favourite. */
  lemma FavouriteHeadsListing(rows: seq<Story>, userId: Id, c: Criterion, x: Story)
    requires x in rows && x.userId == userId && Selects(c, x) && x.isFavourite
    ensures var r := Query(rows, userId, c); r != [] && r[0].isFavourite && r[0] in rows
  {
    var r := Query(rows, userId, c);
    assert multiset(rows)[x] > 0;
    assert x in r by { assert multiset(r)[x] > 0; }
    assert multiset(r)[r[0]] > 0;
  }

  /** A query nothing of the caller's satisfies answers an empty list, not an error. */
  lemma NoMatchEmptyListing(rows: seq<Story>, userId: Id, c: Criterion)
    requires forall x :: x in rows && x.userId == userId ==> !Selects(c, x)
    ensures Query(rows, userId, c) == []
  {
    var r := Query(rows, userId, c);
    forall x ensures multiset(r)[x] == 0 {
      if x in rows && x.userId == userId {
        assert !Selects(c, x);
      }
    }
    assert multiset(r) == multiset{};
  }

  /** A story just appended to the table is in its owner's answer to any query that selects it. */
  lemma AppendedStoryListed(rows: seq<Story>, s: Story, c: Criterion)
    requires Selects(c, s)
    ensures s in Query(rows + [s], s.userId, c)
  {
    var r := Query(rows + [s], s.userId, c);
    assert (rows + [s])[|rows|] == s;
    assert multiset(rows + [s])[s] > 0;
    assert multiset(r)[s] > 0;
  }
}
