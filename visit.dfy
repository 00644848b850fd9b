/**
 * The catalogue browser of the visit page: a fixed list of volumes, a search-and-genre filter
 * followed by a sort, the list currently shown, the volume currently open, and the small text
 * helpers the page renders (genre labels, the results count, the download file name).
 */
module Visit {
  import opened Wrappers
  import opened Text
  import Sorting

  /** A volume of the catalogue. `date` is the publication day written as the number YYYYMMDD. */
  datatype Book = Book(
    id: string, title: string, genre: string, author: string, chapters: int,
    readTime: string, description: string, content: string, date: int)

  /** The six volumes the page ships with. */
  const MockBooks: seq<Book> := [
    Book("1", "The Memory Broker", "sci-fi", "AI Generated", 12, "45 min",
      "In a world where memories can be traded as currency, a detective uncovers a conspiracy that threatens to collapse the entire economic system.",
      "<h1>The Memory Broker</h1><p>In the year 2084, memories became the only currency that mattered...</p>",
      20260220),
    Book("2", "Dreams of Electric Sheep", "fantasy", "AI Generated", 8, "32 min",
      "A young witch discovers her powers in a modern city where magic and technology collide in unexpected ways.",
      "<h1>Dreams of Electric Sheep</h1><p>Maya Chen had always known she was different...</p>",
      20260218),
    Book("3", "The Last Algorithm", "mystery", "AI Generated", 15, "58 min",
      "When the world's most advanced AI suddenly deletes itself, a programmer must solve the digital crime of the century.",
      "<h1>The Last Algorithm</h1><p>The server room went silent at 3:47 AM...</p>",
      20260215),
    Book("4", "Love in the Time of AI", "romance", "AI Generated", 10, "40 min",
      "Two time travelers keep missing each other across different eras, their love story unfolding through letters left in digital archives.",
      "<h1>Love in the Time of AI</h1><p>Dear future me, if you're reading this...</p>",
      20260210),
    Book("5", "Neon Shadows", "horror", "AI Generated", 6, "25 min",
      "In a cyberpunk metropolis, something is hunting through the digital realm, leaving bodies in the real world.",
      "<h1>Neon Shadows</h1><p>The city never slept, but tonight it dreamed of darkness...</p>",
      20260205),
    Book("6", "Quantum Hearts", "sci-fi", "AI Generated", 14, "52 min",
      "Parallel universe researchers fall in love across dimensions, but touching would collapse both realities.",
      "<h1>Quantum Hearts</h1><p>Dr. Sarah Chen stared at the quantum entanglement readings...</p>",
      20260128)
  ]

  /** The filter of `filterBooks`: the query occurs in the lower-cased title or description, and the genre is `all` or the volume's own. */
  predicate Matches(b: Book, query: string, genre: string)
    ensures query == [] ==> (Matches(b, query, genre) <==> genre == "all" || b.genre == genre)
    ensures Matches(b, query, genre) ==> |query| <= |b.title| || |query| <= |b.description|
  {
    && (Contains(Lower(b.title), query) || Contains(Lower(b.description), query))
    && (genre == "all" || b.genre == genre)
  }

  /** `r` is `s` with some elements left out and the rest in their order. */
  predicate Subsequence<T(==)>(r: seq<T>, s: seq<T>)
    decreases |s|
  {
    r == [] || (s != [] && ((r[0] == s[0] && Subsequence(r[1..], s[1..])) || Subsequence(r, s[1..])))
  }

  /** `books.filter(b => Matches(b, query, genre))`. */
  function Matching(books: seq<Book>, query: string, genre: string): (r: seq<Book>)
    ensures forall b :: b in r <==> b in books && Matches(b, query, genre)
    ensures forall b :: multiset(r)[b] == if Matches(b, query, genre) then multiset(books)[b] else 0
    ensures Subsequence(r, books)
  {
    if books == [] then []
    else
      var rest := Matching(books[1..], query, genre);
      assert books == [books[0]] + books[1..];
      if Matches(books[0], query, genre) then
        assert ([books[0]] + rest)[1..] == rest;
        [books[0]] + rest
      else rest
  }

  /** The comparator `filterBooks` hands to `sort`, with dates as YYYYMMDD numbers. */
  function Compare(sort: string, a: Book, b: Book): (c: int)
    ensures c == Rank(sort, a) - Rank(sort, b)
    ensures !KnownOrder(sort) ==> c == 0
  {
    match sort
    case "newest" => b.date - a.date
    case "oldest" => a.date - b.date
    case "longest" => b.chapters - a.chapters
    case "shortest" => a.chapters - b.chapters
    case _ => 0
  }

  /** The four sort keys the comparator distinguishes. */
  predicate KnownOrder(sort: string) {
    sort == "newest" || sort == "oldest" || sort == "longest" || sort == "shortest"
  }

  /** The key whose ascending order the comparator asks for. */
  function Rank(sort: string, b: Book): int {
    match sort
    case "newest" => -b.date
    case "oldest" => b.date
    case "longest" => -b.chapters
    case "shortest" => b.chapters
    case _ => 0
  }

  function KeyOf(sort: string): Book -> int {
    b => Rank(sort, b)
  }

  /**
   * `filterBooks(query, genre, sort)`: the matching volumes of `books`, stably sorted by the
   * chosen order. Every volume shown matches, every matching volume is shown once per occurrence,
   * the four known orders hold, and any other sort key keeps the catalogue order.
   */
  function Browse(books: seq<Book>, query: string, genre: string, sort: string): (r: seq<Book>)
    ensures forall b :: b in r <==> b in books && Matches(b, query, genre)
    ensures multiset(r) == multiset(Matching(books, query, genre))
    ensures sort == "newest" ==> forall i, j :: 0 <= i < j < |r| ==> r[i].date >= r[j].date
    ensures sort == "oldest" ==> forall i, j :: 0 <= i < j < |r| ==> r[i].date <= r[j].date
    ensures sort == "longest" ==> forall i, j :: 0 <= i < j < |r| ==> r[i].chapters >= r[j].chapters
    ensures sort == "shortest" ==> forall i, j :: 0 <= i < j < |r| ==> r[i].chapters <= r[j].chapters
    ensures !KnownOrder(sort) ==> r == Matching(books, query, genre)
  {
    var filtered := Matching(books, query, genre);
    var r := Sorting.SortByKey(filtered, KeyOf(sort));
    assert forall b :: b in r <==> b in multiset(r);
    UnknownOrderKeepsOrder(filtered, sort);
    SortedInChosenOrder(r, sort);
    r
  }

  /** With a sort key the comparator does not know, every comparison is 0 and nothing moves. */
  lemma UnknownOrderKeepsOrder(s: seq<Book>, sort: string)
    ensures !KnownOrder(sort) ==> Sorting.SortByKey(s, KeyOf(sort)) == s
  {
    if !KnownOrder(sort) {
      Sorting.SortEqualKeys(s, KeyOf(sort), 0);
    }
  }

  /** Ascending by rank is, for each known key, the order the page promises. */
  lemma SortedInChosenOrder(r: seq<Book>, sort: string)
    requires Sorting.SortedBy(r, KeyOf(sort))
    ensures sort == "newest" ==> forall i, j :: 0 <= i < j < |r| ==> r[i].date >= r[j].date
    ensures sort == "oldest" ==> forall i, j :: 0 <= i < j < |r| ==> r[i].date <= r[j].date
    ensures sort == "longest" ==> forall i, j :: 0 <= i < j < |r| ==> r[i].chapters >= r[j].chapters
    ensures sort == "shortest" ==> forall i, j :: 0 <= i < j < |r| ==> r[i].chapters <= r[j].chapters
  {
    forall i, j | 0 <= i < j < |r|
      ensures Rank(sort, r[i]) <= Rank(sort, r[j])
    {
      assert KeyOf(sort)(r[i]) <= KeyOf(sort)(r[j]);
    }
  }

  /** Volumes of the same rank keep their catalogue order (the sort is stable). */
  lemma BrowseStable(books: seq<Book>, query: string, genre: string, sort: string, k: int)
    ensures Sorting.WithKey(Browse(books, query, genre, sort), KeyOf(sort), k)
         == Sorting.WithKey(Matching(books, query, genre), KeyOf(sort), k)
  {
    Sorting.SortStable(Matching(books, query, genre), KeyOf(sort), k);
  }

  /** The position of the first volume with identifier `id`, or `|books|` when there is none. */
  function IndexOfId(books: seq<Book>, id: string): (i: nat)
    ensures i <= |books|
    ensures forall j :: 0 <= j < i ==> books[j].id != id
    ensures i < |books| ==> books[i].id == id
  {
    if books == [] then 0
    else if books[0].id == id then 0
    else 1 + IndexOfId(books[1..], id)
  }

  /** `books.find(b => b.id === id)`. */
  function FindById(books: seq<Book>, id: string): (r: Option<Book>)
    ensures r == None <==> forall b :: b in books ==> b.id != id
    ensures r.Some? ==> exists i :: 0 <= i < |books| && books[i] == r.value && r.value.id == id &&
                          forall j :: 0 <= j < i ==> books[j].id != id
  {
    var i := IndexOfId(books, id);
    if i < |books| then Some(books[i]) else None
  }

  /** The labels `formatGenre` knows. */
  const GenreLabels: map<string, string> := map[
    "sci-fi" := "Science Fiction",
    "fantasy" := "Fantasy",
    "mystery" := "Mystery",
    "romance" := "Romance",
    "horror" := "Horror",
    "non-fiction" := "Non-Fiction",
    "thriller" := "Thriller"
  ]

  /** `map[genre] || genre`: the label of a known genre, any other text unchanged. */
  function FormatGenre(genre: string): (shown: string)
    ensures genre in GenreLabels ==> shown == GenreLabels[genre]
    ensures genre !in GenreLabels ==> shown == genre
  {
    var looked := if genre in GenreLabels then Some(GenreLabels[genre]) else None;
    if looked.Some? && looked.value != "" then looked.value else genre
  }

  /** The results line `Showing N volume(s)`: plural exactly when N is not 1. */
  function CountLabel(n: nat): (r: string)
    ensures "Showing " <= r
    ensures r[|r| - 1] == 's' <==> n != 1
  {
    "Showing " + Decimal(n) + " volume" + (if n != 1 then "s" else "")
  }

  /** The results line tells the number of volumes: different counts give different lines. */
  lemma CountLabelInjective(a: nat, b: nat)
    requires CountLabel(a) == CountLabel(b)
    ensures a == b
  {
    var la, lb := CountLabel(a), CountLabel(b);
    var tail := if a != 1 then 8 else 7;
    assert la[|la| - 1] == lb[|lb| - 1];
    assert la[8..|la| - tail] == Decimal(a);
    assert lb[8..|lb| - tail] == Decimal(b);
    DecimalInjective(a, b);
  }

  /** The download name: each whitespace run of the title becomes `_`, then `.html` is appended. */
  function DownloadName(title: string): (r: string)
    ensures forall i :: 0 <= i < |r| ==> !IsSpace(r[i])
    ensures |r| >= 5 && r[|r| - 5..] == ".html"
    ensures Visible(r[..|r| - 5], '_') == Visible(title, '_')
  {
    var base := ReplaceSpaceRuns(title, '_');
    ReplaceSpaceRunsKeepsVisible(title, '_');
    ReplaceSpaceRunsNoWhitespace(title, '_');
    assert (base + ".html")[..|base|] == base;
    base + ".html"
  }

  /** A title without whitespace only gains the extension. */
  lemma DownloadNamePlain(title: string)
    requires forall i :: 0 <= i < |title| ==> !IsSpace(title[i])
    ensures DownloadName(title) == title + ".html"
  {
    ReplaceSpaceRunsNoSpace(title, '_');
  }

  /** A character other than whitespace, `_` included, is copied to the file name as it is. */
  lemma DownloadNameHead(c: char, title: string)
    requires !IsSpace(c)
    ensures DownloadName([c] + title) == [c] + DownloadName(title)
  {
    ReplaceSpaceRunsHead(c, title, '_');
  }

  /** Each whole run of whitespace in the title becomes exactly one `_`. */
  lemma DownloadNameRun(a: string, w: string, b: string)
    requires a == [] || !IsSpace(a[|a| - 1])
    requires w != [] && Blank(w)
    requires b == [] || !IsSpace(b[0])
    ensures DownloadName(a + w + b) == ReplaceSpaceRuns(a, '_') + "_" + DownloadName(b)
  {
    var p, q := ReplaceSpaceRuns(a, '_'), ReplaceSpaceRuns(b, '_');
    ReplaceSpaceRunsRun(a, w, b, '_');
    assert DownloadName(a + w + b) == (p + "_" + q) + ".html";
    assert DownloadName(b) == q + ".html";
    Assoc3(p + "_", q, ".html");
  }

  /**
   * The search box handler as written: it passes no sort key, so `filterBooks` falls back to
   * `newest` whatever the sort control shows.
   */
  function SearchAsWritten(books: seq<Book>, searchText: string, genre: string): (r: seq<Book>)
    ensures forall i, j :: 0 <= i < j < |r| ==> r[i].date >= r[j].date
  {
    Browse(books, Lower(searchText), genre, "newest")
  }

  /** The list the page shows for the three controls: search text, genre and sort. */
  function Search(books: seq<Book>, searchText: string, genre: string, sort: string): (r: seq<Book>)
    ensures forall b :: b in r <==> b in books && Matches(b, Lower(searchText), genre)
    ensures multiset(r) == multiset(Matching(books, Lower(searchText), genre))
    ensures sort == "newest" ==> forall i, j :: 0 <= i < j < |r| ==> r[i].date >= r[j].date
    ensures sort == "oldest" ==> forall i, j :: 0 <= i < j < |r| ==> r[i].date <= r[j].date
    ensures sort == "longest" ==> forall i, j :: 0 <= i < j < |r| ==> r[i].chapters >= r[j].chapters
    ensures sort == "shortest" ==> forall i, j :: 0 <= i < j < |r| ==> r[i].chapters <= r[j].chapters
    ensures !KnownOrder(sort) ==> r == Matching(books, Lower(searchText), genre)
  {
    Browse(books, Lower(searchText), genre, sort)
  }

  /**
   * Typing in the search box while the sort control shows `oldest` lists two volumes newest
   * first, against the order the control shows.
   */
  lemma SearchAsWrittenIgnoresSort(older: Book, newer: Book)
    requires older.date < newer.date
    ensures SearchAsWritten([older, newer], "", "all") == [newer, older]
    ensures Search([older, newer], "", "all", "oldest") == [older, newer]
  {
    var books := [older, newer];
    assert Lower("") == "";
    assert Matches(older, "", "all") && Matches(newer, "", "all");
    assert Matching([newer], "", "all") == [newer];
    assert books[1..] == [newer];
    assert Matching(books, "", "all") == books;
    assert Sorting.SortByKey([newer], KeyOf("newest")) == [newer];
    assert Sorting.SortByKey([newer], KeyOf("oldest")) == [newer];
    assert KeyOf("newest")(older) > KeyOf("newest")(newer);
    assert KeyOf("oldest")(older) <= KeyOf("oldest")(newer);
  }

  /** The module state of the visit page. */
  class Catalogue {
    /** The catalogue (`mockBooks`); it never changes. */
    const library: seq<Book>
    /** The volumes last listed (`currentBooks`). */
    var currentBooks: seq<Book>
    /** The volume open in the reading modal (`currentBook`), if any. */
    var currentBook: Option<Book>
    /** The text of the results line, rewritten whenever the list is rendered. */
    var resultsCount: string

    /** Page load: the whole catalogue listed, no volume open. */
    constructor()
      ensures library == MockBooks
      ensures currentBooks == library && currentBook == None
      ensures resultsCount == CountLabel(|library|)
    {
      library := MockBooks;
      currentBooks := MockBooks;
      currentBook := None;
      resultsCount := CountLabel(|MockBooks|);
    }

    /** Filters the whole catalogue, never the list shown before, and renders the result. */
    method FilterBooks(query: string, genre: string, sort: string)
      modifies this
      ensures currentBooks == Browse(library, query, genre, sort)
      ensures resultsCount == CountLabel(|currentBooks|)
      ensures currentBook == old(currentBook)
    {
      var filtered := Browse(library, query, genre, sort);
      currentBooks := filtered;
      resultsCount := CountLabel(|filtered|);
    }

    /** A change of the genre or sort control: the search text is lower-cased first. */
    method HandleFilters(searchText: string, genre: string, sort: string)
      modifies this
      ensures currentBooks == Search(library, searchText, genre, sort)
      ensures resultsCount == CountLabel(|currentBooks|)
      ensures currentBook == old(currentBook)
    {
      FilterBooks(Lower(searchText), genre, sort);
    }

    /** Typing in the search box; the sort control's value is passed on as well. */
    method HandleSearch(searchText: string, genre: string, sort: string)
      modifies this
      ensures currentBooks == Search(library, searchText, genre, sort)
      ensures resultsCount == CountLabel(|currentBooks|)
      ensures currentBook == old(currentBook)
    {
      FilterBooks(Lower(searchText), genre, sort);
    }

    /** Clears the controls and lists the whole catalogue again. */
    method ResetFilters()
      modifies this
      ensures currentBooks == library
      ensures resultsCount == CountLabel(|library|)
      ensures currentBook == old(currentBook)
    {
      currentBooks := library;
      resultsCount := CountLabel(|library|);
    }

    /** Opens the listed volume with identifier `id`; an unknown identifier changes nothing. */
    method OpenBook(id: string)
      modifies this
      ensures currentBooks == old(currentBooks) && resultsCount == old(resultsCount)
      ensures FindById(currentBooks, id) == None ==> currentBook == old(currentBook)
      ensures FindById(currentBooks, id).Some? ==> currentBook == FindById(currentBooks, id)
    {
      var found := FindById(currentBooks, id);
      if found.Some? {
        currentBook := found;
      }
    }

    /** Closes the reading modal. */
    method CloseModal()
      modifies this
      ensures currentBook == None
      ensures currentBooks == old(currentBooks) && resultsCount == old(resultsCount)
    {
      currentBook := None;
    }

    /** The file name `downloadBook` saves the open volume under; nothing without an open volume. */
    method DownloadBook() returns (fileName: Option<string>)
      ensures currentBook == None ==> fileName == None
      ensures currentBook.Some? ==> fileName == Some(DownloadName(currentBook.value.title))
    {
      if currentBook == None {
        return None;
      }
      fileName := Some(DownloadName(currentBook.value.title));
    }
  }
}
