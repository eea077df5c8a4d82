/**
 * The pure post-processing each provider adapter applies to the raw terms
 * its service returns. The network calls themselves are not modelled: their
 * answers are the inputs here. `str.title()` is passed in as `title`, a
 * function the model knows nothing about.
 */
module Normalise {
  import opened Wrappers
  import opened Text

  /** Every term through `title`, order kept: `(g.title() for g in gs)`. */
  function Titled(gs: seq<string>, title: string -> string): (r: seq<string>)
    ensures |r| == |gs|
    ensures forall k :: 0 <= k < |gs| ==> r[k] == title(gs[k])
  {
    seq(|gs|, k requires 0 <= k < |gs| => title(gs[k]))
  }

  /**
   * The tail every list-based adapter shares: a non-empty list becomes its
   * title-cased terms joined by `', '`; an empty list gives no result.
   */
  function Present(gs: seq<string>, title: string -> string): (r: Option<string>)
    ensures r.None? <==> gs == []
    ensures r.Some? ==> r.value == JoinWith(Titled(gs, title), ", ")
  {
    if gs != [] then Some(JoinWith(Titled(gs, title), ", ")) else None
  }

  // ---------------------------------------------------------------------
  // Spotify
  // ---------------------------------------------------------------------

  /** The artist's genre list, as the Spotify adapter reports it. */
  function SpotifyGenres(genres: seq<string>, title: string -> string): (r: Option<string>)
    ensures r.None? <==> genres == []
    ensures |genres| == 1 ==> r == Some(title(genres[0]))
    ensures r.Some? ==> r.value == JoinWith(Titled(genres, title), ", ")
  {
    Present(genres, title)
  }

  // ---------------------------------------------------------------------
  // Last.fm
  // ---------------------------------------------------------------------

  /** Social tags that say nothing about genre. */
  const Stoplist: set<string> :=
    {"seen live", "favorites", "favourite", "love", "loved", "awesome",
     "great", "good", "best", "cool", "amazing", "beautiful", "classic"}

  /** Keeps the tag names whose lower-case form is not on the stoplist. */
  function LastfmKeep(names: seq<string>): (r: seq<string>)
    ensures |r| <= |names|
    ensures forall t :: t in r <==> t in names && Lower(t) !in Stoplist
  {
    if names == [] then []
    else if Lower(names[0]) !in Stoplist then [names[0]] + LastfmKeep(names[1..])
    else LastfmKeep(names[1..])
  }

  /** The filter works term by term, so it keeps the original order. */
  lemma {:induction false} LastfmKeepAppend(a: seq<string>, b: seq<string>)
    ensures LastfmKeep(a + b) == LastfmKeep(a) + LastfmKeep(b)
  {
    if a == [] {
      assert a + b == b;
    } else {
      assert (a + b)[0] == a[0];
      assert (a + b)[1..] == a[1..] + b;
      if Lower(a[0]) !in Stoplist {
        calc {
          LastfmKeep(a + b);
          [a[0]] + LastfmKeep(a[1..] + b);
          { LastfmKeepAppend(a[1..], b); }
          [a[0]] + (LastfmKeep(a[1..]) + LastfmKeep(b));
          ([a[0]] + LastfmKeep(a[1..])) + LastfmKeep(b);
        }
      } else {
        LastfmKeepAppend(a[1..], b);
      }
    }
  }

  lemma LastfmKeepOne(t: string)
    ensures LastfmKeep([t]) == if Lower(t) in Stoplist then [] else [t]
  {
    assert [t][1..] == [];
  }

  /** The Last.fm adapter: filter, then title-case and join. */
  function LastfmGenres(names: seq<string>, title: string -> string): (r: Option<string>)
    ensures r.None? <==> forall t :: t in names ==> Lower(t) in Stoplist
    ensures r.Some? ==> r.value == JoinWith(Titled(LastfmKeep(names), title), ", ")
  {
    var kept := LastfmKeep(names);
    assert kept != [] ==> kept[0] in kept;
    Present(kept, title)
  }

  // ---------------------------------------------------------------------
  // Discogs
  // ---------------------------------------------------------------------

  /** `getattr(release, attr, []) or []`: a missing or null list reads as empty. */
  function OrEmpty(l: Option<seq<string>>): seq<string>
  {
    if l.Some? then l.value else []
  }

  /** Genres first, then styles, nothing dropped or reordered. */
  function DiscogsCombined(genres: Option<seq<string>>, styles: Option<seq<string>>): (r: seq<string>)
    ensures |r| == |OrEmpty(genres)| + |OrEmpty(styles)|
    ensures r[..|OrEmpty(genres)|] == OrEmpty(genres)
    ensures r[|OrEmpty(genres)|..] == OrEmpty(styles)
  {
    OrEmpty(genres) + OrEmpty(styles)
  }

  /** The Discogs adapter on the first release found. */
  function DiscogsGenres(genres: Option<seq<string>>, styles: Option<seq<string>>,
                         title: string -> string): (r: Option<string>)
    ensures r.None? <==> OrEmpty(genres) == [] && OrEmpty(styles) == []
    ensures r.Some? ==> r.value == JoinWith(Titled(DiscogsCombined(genres, styles), title), ", ")
  {
    Present(DiscogsCombined(genres, styles), title)
  }

  // ---------------------------------------------------------------------
  // Wikipedia
  // ---------------------------------------------------------------------

  /**
   * The infobox genre cell: the texts of its `<li>` elements, and its whole
   * text with ' | ' between elements (both as the HTML parser gives them).
   */
  datatype GenreCell = GenreCell(listItems: seq<string>, text: string)

  /** List items when there are any, otherwise the text split on `|` and `,`. */
  function WikiItems(cell: GenreCell): (r: seq<string>)
    ensures cell.listItems != [] ==> r == cell.listItems
    ensures cell.listItems == [] ==> r == Split(cell.text) && |r| == SepCount(cell.text) + 1
  {
    if cell.listItems != [] then cell.listItems else Split(cell.text)
  }

  /** `[i.strip().title() for i in items if i.strip()]` */
  function CleanItems(items: seq<string>, title: string -> string): (r: seq<string>)
    ensures |r| <= |items|
  {
    if items == [] then []
    else if |Strip(items[0])| != 0 then [title(Strip(items[0]))] + CleanItems(items[1..], title)
    else CleanItems(items[1..], title)
  }

  /** Nothing survives exactly when every item is blank. */
  lemma {:induction false} CleanItemsEmpty(items: seq<string>, title: string -> string)
    ensures CleanItems(items, title) == [] <==> forall k :: 0 <= k < |items| ==> Strip(items[k]) == ""
  {
    if items != [] {
      CleanItemsEmpty(items[1..], title);
      assert forall k :: 1 <= k < |items| ==> items[k] == items[1..][k - 1];
    }
  }

  /** Cleaning works item by item: cleaning a concatenation concatenates the cleaned parts. */
  lemma {:induction false} CleanItemsAppend(a: seq<string>, b: seq<string>, title: string -> string)
    ensures CleanItems(a + b, title) == CleanItems(a, title) + CleanItems(b, title)
  {
    if a == [] {
      assert a + b == b;
    } else {
      assert (a + b)[0] == a[0];
      assert (a + b)[1..] == a[1..] + b;
      CleanItemsAppend(a[1..], b, title);
      if Strip(a[0]) != "" {
        var x := [title(Strip(a[0]))];
        assert x + (CleanItems(a[1..], title) + CleanItems(b, title))
            == (x + CleanItems(a[1..], title)) + CleanItems(b, title);
      }
    }
  }

  /** What the Wikipedia adapter returns once the genre cell is found. */
  function WikiGenres(cell: GenreCell, title: string -> string): (r: string)
    ensures r == JoinWith(CleanItems(WikiItems(cell), title), ", ")
    ensures (forall k :: 0 <= k < |WikiItems(cell)| ==> Strip(WikiItems(cell)[k]) == "") ==> r == ""
  {
    CleanItemsEmpty(WikiItems(cell), title);
    JoinWith(CleanItems(WikiItems(cell), title), ", ")
  }

  /**
   * The empty string, which the resolver treats as no result, comes back
   * exactly when no item survives, provided `title` never empties a term.
   */
  lemma WikiGenresEmpty(cell: GenreCell, title: string -> string)
    requires forall s :: s != "" ==> title(s) != ""
    ensures WikiGenres(cell, title) == "" <==>
            forall k :: 0 <= k < |WikiItems(cell)| ==> Strip(WikiItems(cell)[k]) == ""
  {
    var items := CleanItems(WikiItems(cell), title);
    CleanItemsEmpty(WikiItems(cell), title);
    JoinEmpty(items, ", ");
    if items == [""] {
      CleanItemsHead(WikiItems(cell), title);
    }
  }

  /** The first cleaned item is `title` of a non-blank stripped item. */
  lemma {:induction false} CleanItemsHead(items: seq<string>, title: string -> string)
    requires CleanItems(items, title) != []
    ensures exists k :: 0 <= k < |items| && Strip(items[k]) != "" && CleanItems(items, title)[0] == title(Strip(items[k]))
  {
    if |Strip(items[0])| == 0 {
      assert CleanItems(items, title) == CleanItems(items[1..], title);
      CleanItemsHead(items[1..], title);
      var k :| 0 <= k < |items[1..]| && Strip(items[1..][k]) != "" &&
               CleanItems(items[1..], title)[0] == title(Strip(items[1..][k]));
      assert Strip(items[k + 1]) != "" && CleanItems(items, title)[0] == title(Strip(items[k + 1]));
    } else {
      assert CleanItems(items, title)[0] == title(Strip(items[0]));
    }
  }

  /** Splitting `x, rest`: x alone, then the pieces of what follows the comma. */
  lemma SplitCommaBlank(x: string, rest: string)
    requires NoSep(x)
    ensures Split(x + ", " + rest) == [x] + Split([' '] + rest)
  {
    assert x + ", " + rest == x + [','] + ([' '] + rest);
    SplitPieceCons(x, ',', [' '] + rest);
  }

  /** A blank in front joins the first piece. */
  lemma SplitBlankCons(t: string)
    ensures Split([' '] + t) == [[' '] + Split(t)[0]] + Split(t)[1..]
  {
    assert ([' '] + t)[1..] == t;
  }

  /** A clean item in front is kept, title-cased. */
  lemma CleanItemsCons(x: string, items: seq<string>, title: string -> string)
    requires x != "" && Strip(x) == x
    ensures CleanItems([x] + items, title) == [title(x)] + CleanItems(items, title)
  {
    assert ([x] + items)[1..] == items;
  }

  /** A blank in front of an item changes nothing once it is cleaned. */
  lemma CleanItemsDropBlank(p: string, ps: seq<string>, title: string -> string)
    ensures CleanItems([[' '] + p] + ps, title) == CleanItems([p] + ps, title)
  {
    StripAfterSpace(' ', p);
    assert ([[' '] + p] + ps)[1..] == ps;
    assert ([p] + ps)[1..] == ps;
  }

  lemma WikiReadsBackEmpty(title: string -> string)
    ensures CleanItems(Split(""), title) == []
  {
    assert Split("") == [""];
    assert AllSpace("");
  }

  /** A stripped, non-blank item is kept as its title-cased self. */
  lemma CleanItemsOne(x: string, title: string -> string)
    requires x != "" && Strip(x) == x
    ensures CleanItems([x], title) == [title(x)]
  {
    assert [x][1..] == [];
  }

  lemma WikiReadsBackOne(x: string, title: string -> string)
    requires x != "" && Strip(x) == x && NoSep(x)
    ensures CleanItems(Split(x), title) == [title(x)]
  {
    SplitWhole(x);
    CleanItemsOne(x, title);
  }

  /** Reading back `x, rest`: x itself, then whatever rest reads back as. */
  lemma ReadBackCons(x: string, rest: string, title: string -> string)
    requires x != "" && Strip(x) == x && NoSep(x)
    ensures CleanItems(Split(x + ", " + rest), title) == [title(x)] + CleanItems(Split(rest), title)
  {
    var pieces := Split(rest);
    calc {
      CleanItems(Split(x + ", " + rest), title);
      { SplitCommaBlank(x, rest); }
      CleanItems([x] + Split([' '] + rest), title);
      { CleanItemsCons(x, Split([' '] + rest), title); }
      [title(x)] + CleanItems(Split([' '] + rest), title);
      { SplitBlankCons(rest); CleanItemsDropBlank(pieces[0], pieces[1..], title); }
      [title(x)] + CleanItems([pieces[0]] + pieces[1..], title);
      { assert [pieces[0]] + pieces[1..] == pieces; }
      [title(x)] + CleanItems(pieces, title);
    }
  }

  /** One term in front of an already read-back list. */
  lemma WikiReadsBackStep(xs: seq<string>, title: string -> string)
    requires |xs| > 1 && xs[0] != "" && Strip(xs[0]) == xs[0] && NoSep(xs[0])
    requires CleanItems(Split(JoinWith(xs[1..], ", ")), title) == Titled(xs[1..], title)
    ensures CleanItems(Split(JoinWith(xs, ", ")), title) == Titled(xs, title)
  {
    var rest := JoinWith(xs[1..], ", ");
    assert JoinWith(xs, ", ") == xs[0] + ", " + rest;
    ReadBackCons(xs[0], rest, title);
    TitledCons(xs, title);
  }

  /**
   * Terms joined with `', '`, read back through the Wikipedia splitter and
   * cleaner, give the terms back: the normalised format is stable.
   */
  lemma {:induction false} WikiReadsBackJoin(xs: seq<string>, title: string -> string)
    requires forall k :: 0 <= k < |xs| ==> xs[k] != "" && Strip(xs[k]) == xs[k] && NoSep(xs[k])
    ensures CleanItems(Split(JoinWith(xs, ", ")), title) == Titled(xs, title)
  {
    if xs == [] {
      WikiReadsBackEmpty(title);
    } else if |xs| == 1 {
      WikiReadsBackOne(xs[0], title);
      assert Titled(xs, title) == [title(xs[0])];
    } else {
      WikiReadsBackJoin(xs[1..], title);
      WikiReadsBackStep(xs, title);
    }
  }

  /**
   * Whatever the service, the value an adapter returns splits back at its
   * commas into the title-cased terms, as long as title-casing leaves each
   * term non-empty, without surrounding blanks and without `|` or `,`.
   */
  lemma PresentSplitsBack(gs: seq<string>, title: string -> string)
    requires forall k :: 0 <= k < |gs| ==> Clean(title(gs[k]))
    ensures var r := Present(gs, title);
            r.Some? ==> CleanItems(Split(r.value), s => s) == Titled(gs, title)
  {
    var ts := Titled(gs, title);
    if gs != [] {
      WikiReadsBackJoin(ts, s => s);
      assert Titled(ts, s => s) == ts;
    }
  }

  /** A term the joined format carries unchanged: non-empty, no surrounding blanks, no `|` or `,`. */
  predicate Clean(x: string)
  {
    x != "" && Strip(x) == x && NoSep(x)
  }

  /** Items that are already clean are only title-cased. */
  lemma {:induction false} CleanItemsClean(items: seq<string>, title: string -> string)
    requires forall k :: 0 <= k < |items| ==> items[k] != "" && Strip(items[k]) == items[k]
    ensures CleanItems(items, title) == Titled(items, title)
  {
    if items != [] {
      CleanItemsClean(items[1..], title);
      TitledCons(items, title);
    }
  }

  /** A cell with list items: each item, title-cased, joined with `', '`. */
  lemma WikiFromListItems(cell: GenreCell, title: string -> string)
    requires cell.listItems != []
    requires forall k :: 0 <= k < |cell.listItems| ==>
               cell.listItems[k] != "" && Strip(cell.listItems[k]) == cell.listItems[k]
    ensures WikiGenres(cell, title) == JoinWith(Titled(cell.listItems, title), ", ")
  {
    CleanItemsClean(cell.listItems, title);
  }

  /** A cell without list items whose text lists terms with `', '` gives those terms, title-cased. */
  lemma WikiFromText(cell: GenreCell, xs: seq<string>, title: string -> string)
    requires cell.listItems == [] && cell.text == JoinWith(xs, ", ")
    requires forall k :: 0 <= k < |xs| ==> Clean(xs[k])
    ensures WikiGenres(cell, title) == JoinWith(Titled(xs, title), ", ")
  {
    WikiReadsBackJoin(xs, title);
  }

  /** A clean term keeps its form when a blank follows it. */
  lemma StripPadded(x: string)
    requires Clean(x)
    ensures Strip(x + " ") == x
  {
    assert !IsSpace(x[0]) && !IsSpace(x[|x| - 1]);
    assert StripLeft(x + " ") == x + " ";
    assert (x + " ")[..|x|] == x;
    assert StripRight(x + " ") == StripRight(x);
  }

  /** Splitting `x | rest`: x with its blank, then the pieces of what follows the bar. */
  lemma SplitBarCons(x: string, rest: string)
    requires NoSep(x)
    ensures Split(x + " | " + rest) == [x + " "] + Split([' '] + rest)
  {
    assert x + " | " + rest == (x + " ") + ['|'] + ([' '] + rest);
    SplitPieceCons(x + " ", '|', [' '] + rest);
  }

  /** Reading back `x | rest`: x itself, then whatever rest reads back as. */
  lemma ReadBackBarCons(x: string, rest: string, title: string -> string)
    requires Clean(x)
    ensures CleanItems(Split(x + " | " + rest), title) == [title(x)] + CleanItems(Split(rest), title)
  {
    var pieces := Split(rest);
    calc {
      CleanItems(Split(x + " | " + rest), title);
      { SplitBarCons(x, rest); }
      CleanItems([x + " "] + Split([' '] + rest), title);
      { StripPadded(x); CleanItemsKeep(x + " ", Split([' '] + rest), title); }
      [title(x)] + CleanItems(Split([' '] + rest), title);
      { SplitBlankCons(rest); CleanItemsDropBlank(pieces[0], pieces[1..], title); }
      [title(x)] + CleanItems([pieces[0]] + pieces[1..], title);
      { assert [pieces[0]] + pieces[1..] == pieces; }
      [title(x)] + CleanItems(pieces, title);
    }
  }

  /** A non-blank item in front is kept, stripped and title-cased. */
  lemma CleanItemsKeep(y: string, ys: seq<string>, title: string -> string)
    requires Strip(y) != ""
    ensures CleanItems([y] + ys, title) == [title(Strip(y))] + CleanItems(ys, title)
  {
    assert ([y] + ys)[1..] == ys;
  }

  /**
   * Terms as the HTML parser joins the cell's elements, with ` | ` between
   * them, read back as exactly those terms, title-cased.
   */
  lemma {:induction false} BarReadsBack(xs: seq<string>, title: string -> string)
    requires forall k :: 0 <= k < |xs| ==> Clean(xs[k])
    ensures CleanItems(Split(JoinWith(xs, " | ")), title) == Titled(xs, title)
  {
    if xs == [] {
      WikiReadsBackEmpty(title);
    } else if |xs| == 1 {
      WikiReadsBackOne(xs[0], title);
      assert Titled(xs, title) == [title(xs[0])];
    } else {
      BarReadsBack(xs[1..], title);
      assert JoinWith(xs, " | ") == xs[0] + " | " + JoinWith(xs[1..], " | ");
      ReadBackBarCons(xs[0], JoinWith(xs[1..], " | "), title);
      TitledCons(xs, title);
    }
  }

  /** A cell without list items whose elements are clean terms gives those terms, title-cased and joined. */
  lemma WikiFromElements(cell: GenreCell, xs: seq<string>, title: string -> string)
    requires cell.listItems == [] && cell.text == JoinWith(xs, " | ")
    requires forall k :: 0 <= k < |xs| ==> Clean(xs[k])
    ensures WikiGenres(cell, title) == JoinWith(Titled(xs, title), ", ")
  {
    BarReadsBack(xs, title);
  }

  lemma TitledCons(xs: seq<string>, title: string -> string)
    requires xs != []
    ensures Titled(xs, title) == [title(xs[0])] + Titled(xs[1..], title)
  {
    var l, r := Titled(xs, title), [title(xs[0])] + Titled(xs[1..], title);
    assert |l| == |r|;
    forall k | 0 <= k < |l| ensures l[k] == r[k] {
      if k > 0 { assert r[k] == Titled(xs[1..], title)[k - 1]; }
    }
  }
}
