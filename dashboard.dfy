/** The community ideas dashboard: a title search and a category filter over
    the idea list, a sort by score, popularity or date, and the two display
    helpers used on each idea card. */
module Dashboard {
  import Text
  import opened Presentation

  /** One idea of the list. `date` is the idea's day as an integer that grows
      with time (the source keeps an ISO date string and compares the
      timestamps `new Date(date).getTime()`). */
  datatype Idea = Idea(
    id: int,
    title: string,
    description: string,
    category: string,
    author: string,
    date: int,
    marketPotential: int,
    overallScore: int,
    upvotes: int,
    downvotes: int,
    status: string)

  /** The category filter value that lets every category through. */
  const AllCategories := "all"

  /** The filter of the list: the lower-cased title contains the lower-cased
      search term, and the category is the selected one unless "all" is
      selected. */
  function Matches(idea: Idea, searchTerm: string, categoryFilter: string): (m: bool)
    ensures m ==> categoryFilter == AllCategories || idea.category == categoryFilter
    ensures m ==> |searchTerm| <= |idea.title|
    ensures searchTerm == "" && categoryFilter == AllCategories ==> m
  {
    Text.Includes(Text.Lower(idea.title), Text.Lower(searchTerm))
    && (categoryFilter == AllCategories || idea.category == categoryFilter)
  }

  /** `ideas.filter(idea => Matches(idea, ...))`. Every kept idea matches, and
      each idea is kept exactly as often as it occurs in the input when it
      matches, and never otherwise. */
  function Filter(ideas: seq<Idea>, searchTerm: string, categoryFilter: string): (kept: seq<Idea>)
    ensures forall k :: 0 <= k < |kept| ==> Matches(kept[k], searchTerm, categoryFilter)
    ensures forall x :: multiset(kept)[x] == if Matches(x, searchTerm, categoryFilter) then multiset(ideas)[x] else 0
  {
    if ideas == [] then []
    else
      assert ideas == [ideas[0]] + ideas[1..];
      var rest := Filter(ideas[1..], searchTerm, categoryFilter);
      if Matches(ideas[0], searchTerm, categoryFilter) then [ideas[0]] + rest else rest
  }

  /** The value an idea is sorted by, highest first: the overall score for
      "score", upvotes minus downvotes for "popularity", and the date for
      "date" and every other key. */
  function Key(sortBy: string, idea: Idea): int
  {
    if sortBy == "score" then idea.overallScore
    else if sortBy == "popularity" then idea.upvotes - idea.downvotes
    else idea.date
  }

  /** The comparator passed to `sort`; a negative or zero result lets `a`
      stand before `b`. It is the key of `b` minus the key of `a`, so it
      orders by key, highest first. */
  function Compare(sortBy: string, a: Idea, b: Idea): int
  {
    Key(sortBy, b) - Key(sortBy, a)
  }

  /** The comparator is consistent, as `sort` needs: swapping the arguments
      negates it, any two ideas are comparable, and "may stand before" is
      transitive. */
  lemma ComparatorConsistent(sortBy: string, a: Idea, b: Idea, c: Idea)
    ensures Compare(sortBy, a, b) == -Compare(sortBy, b, a)
    ensures Compare(sortBy, a, b) <= 0 || Compare(sortBy, b, a) <= 0
    ensures Compare(sortBy, a, a) == 0
    ensures Compare(sortBy, a, b) <= 0 && Compare(sortBy, b, c) <= 0 ==> Compare(sortBy, a, c) <= 0
  {
  }

  /** No pair of the list is out of order for the comparator. */
  predicate Sorted(sortBy: string, s: seq<Idea>)
  {
    forall i, j :: 0 <= i < j < |s| ==> Compare(sortBy, s[i], s[j]) <= 0
  }

  /** Puts `x` into a list before the first element it may precede. */
  function Insert(sortBy: string, x: Idea, s: seq<Idea>): (r: seq<Idea>)
    ensures multiset(r) == multiset(s) + multiset{x}
  {
    if s == [] || Compare(sortBy, x, s[0]) <= 0 then
      [x] + s
    else
      assert s == [s[0]] + s[1..];
      [s[0]] + Insert(sortBy, x, s[1..])
  }

  /** Inserting into a sorted list gives a sorted list. */
  lemma {:induction false} InsertSorted(sortBy: string, x: Idea, s: seq<Idea>)
    requires Sorted(sortBy, s)
    ensures Sorted(sortBy, Insert(sortBy, x, s))
  {
    if s != [] && Compare(sortBy, x, s[0]) > 0 {
      var tail := Insert(sortBy, x, s[1..]);
      InsertSorted(sortBy, x, s[1..]);
      forall k | 0 <= k < |tail| ensures Key(sortBy, tail[k]) <= Key(sortBy, s[0]) {
        assert tail[k] in multiset(tail);
        if tail[k] != x {
          assert tail[k] in multiset(s[1..]);
          var j :| 0 <= j < |s[1..]| && s[1..][j] == tail[k];
          assert Compare(sortBy, s[0], s[j + 1]) <= 0;
        }
      }
      assert Insert(sortBy, x, s) == [s[0]] + tail;
    }
  }

  /** `sort` with the comparator: a reordering of the list in which no pair is
      out of order. */
  function Sort(sortBy: string, s: seq<Idea>): (r: seq<Idea>)
    ensures multiset(r) == multiset(s)
    ensures Sorted(sortBy, r)
  {
    if s == [] then []
    else
      assert s == [s[0]] + s[1..];
      var sorted := Sort(sortBy, s[1..]);
      InsertSorted(sortBy, s[0], sorted);
      Insert(sortBy, s[0], sorted)
  }

  /** `filteredIdeas`: the ideas that match the search and the category, each
      as often as in the input, in comparator order. */
  function FilteredIdeas(ideas: seq<Idea>, searchTerm: string, categoryFilter: string, sortBy: string): (shown: seq<Idea>)
    ensures forall k :: 0 <= k < |shown| ==> Matches(shown[k], searchTerm, categoryFilter)
    ensures forall x :: multiset(shown)[x] == if Matches(x, searchTerm, categoryFilter) then multiset(ideas)[x] else 0
    ensures Sorted(sortBy, shown)
  {
    Sort(sortBy, Filter(ideas, searchTerm, categoryFilter))
  }

  /** Every shown idea's lower-cased title contains the lower-cased search
      term at some position, and its category is the selected one unless
      "all" is selected. */
  lemma ShownIdeasMatch(ideas: seq<Idea>, searchTerm: string, categoryFilter: string, sortBy: string, k: int)
    requires 0 <= k < |FilteredIdeas(ideas, searchTerm, categoryFilter, sortBy)|
    ensures var idea := FilteredIdeas(ideas, searchTerm, categoryFilter, sortBy)[k];
      && (exists i :: Text.OccursAt(Text.Lower(idea.title), Text.Lower(searchTerm), i))
      && (categoryFilter != AllCategories ==> idea.category == categoryFilter)
  {
    var idea := FilteredIdeas(ideas, searchTerm, categoryFilter, sortBy)[k];
    Text.IncludesIff(Text.Lower(idea.title), Text.Lower(searchTerm));
  }

  /** With an empty search term and "all" categories nothing is dropped: the
      shown list is a reordering of the whole list. */
  lemma EmptySearchKeepsAll(ideas: seq<Idea>, sortBy: string)
    ensures multiset(FilteredIdeas(ideas, "", AllCategories, sortBy)) == multiset(ideas)
  {
  }

  /** The search ignores the case of the search term. */
  lemma SearchIgnoresCase(idea: Idea, searchTerm: string, categoryFilter: string)
    ensures Matches(idea, Text.Lower(searchTerm), categoryFilter) == Matches(idea, searchTerm, categoryFilter)
  {
    Text.LowerIdempotent(searchTerm);
  }

  /** Sorting by "score" shows the highest overall score first. */
  lemma ScoreOrder(ideas: seq<Idea>, searchTerm: string, categoryFilter: string)
    ensures var shown := FilteredIdeas(ideas, searchTerm, categoryFilter, "score");
      forall i, j :: 0 <= i < j < |shown| ==> shown[i].overallScore >= shown[j].overallScore
  {
  }

  /** Sorting by "popularity" shows the largest upvotes-minus-downvotes first. */
  lemma PopularityOrder(ideas: seq<Idea>, searchTerm: string, categoryFilter: string)
    ensures var shown := FilteredIdeas(ideas, searchTerm, categoryFilter, "popularity");
      forall i, j :: 0 <= i < j < |shown| ==>
        shown[i].upvotes - shown[i].downvotes >= shown[j].upvotes - shown[j].downvotes
  {
  }

  /** Sorting by "date", or by any key other than "score" and "popularity",
      shows the newest idea first. */
  lemma DateOrder(ideas: seq<Idea>, searchTerm: string, categoryFilter: string, sortBy: string)
    requires sortBy != "score" && sortBy != "popularity"
    ensures var shown := FilteredIdeas(ideas, searchTerm, categoryFilter, sortBy);
      forall i, j :: 0 <= i < j < |shown| ==> shown[i].date >= shown[j].date
  {
  }

  /** `getScoreColor` of an idea card: green from 90, yellow from 80, red below. */
  function ScoreColor(score: int): (band: Band)
    ensures band == Green <==> score >= 90
    ensures band == Yellow <==> 80 <= score < 90
    ensures band == Red <==> score < 80
  {
    if score >= 90 then Green
    else if score >= 80 then Yellow
    else Red
  }

  /** A higher score never gets a worse colour. */
  lemma ScoreColorMonotone(lower: int, higher: int)
    requires lower <= higher
    ensures Rank(ScoreColor(lower)) <= Rank(ScoreColor(higher))
  {
  }

  /** `getRatingStars`: always five stars, filled first, as many filled as the
      rating clamped to 0..5. */
  function RatingStars(rating: int): (stars: seq<bool>)
    ensures |stars| == StarCount
    ensures Filled(stars) == Clamp(rating, 0, StarCount)
    ensures forall i, j :: 0 <= i < j < StarCount && stars[j] ==> stars[i]
  {
    StarRowFilled(rating);
    StarRow(rating)
  }
}
