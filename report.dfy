/**
 * The summary report written after a batch: the results split into files
 * with and without a genre, integer percentages, and the fixed text layout.
 */
module Report {
  import opened Wrappers
  import opened Seqs
  import opened Text
  import opened Process

  // ---------------------------------------------------------------------
  // Partition
  // ---------------------------------------------------------------------

  /** `[(f, g) for f, g in results if g]` */
  function WithGenre(rs: seq<Outcome>): (r: seq<Outcome>)
    ensures |r| <= |rs|
    ensures forall o :: o in r <==> o in rs && Truthy(o.genre)
  {
    if rs == [] then []
    else if Truthy(rs[0].genre) then [rs[0]] + WithGenre(rs[1..])
    else WithGenre(rs[1..])
  }

  /** `[(f, g) for f, g in results if not g]` */
  function WithoutGenre(rs: seq<Outcome>): (r: seq<Outcome>)
    ensures |r| <= |rs|
    ensures forall o :: o in r <==> o in rs && !Truthy(o.genre)
  {
    if rs == [] then []
    else if !Truthy(rs[0].genre) then [rs[0]] + WithoutGenre(rs[1..])
    else WithoutGenre(rs[1..])
  }

  /** Every result lands in exactly one of the two lists. */
  lemma {:induction false} PartitionSizes(rs: seq<Outcome>)
    ensures |WithGenre(rs)| + |WithoutGenre(rs)| == |rs|
  {
    if rs != [] {
      PartitionSizes(rs[1..]);
    }
  }

  lemma {:induction false} WithGenreAppend(a: seq<Outcome>, b: seq<Outcome>)
    ensures WithGenre(a + b) == WithGenre(a) + WithGenre(b)
  {
    if a == [] {
      assert a + b == b;
    } else {
      assert (a + b)[0] == a[0];
      assert (a + b)[1..] == a[1..] + b;
      if Truthy(a[0].genre) {
        calc {
          WithGenre(a + b);
          [a[0]] + WithGenre(a[1..] + b);
          { WithGenreAppend(a[1..], b); }
          [a[0]] + (WithGenre(a[1..]) + WithGenre(b));
          ([a[0]] + WithGenre(a[1..])) + WithGenre(b);
        }
      } else {
        WithGenreAppend(a[1..], b);
      }
    }
  }

  lemma {:induction false} WithoutGenreAppend(a: seq<Outcome>, b: seq<Outcome>)
    ensures WithoutGenre(a + b) == WithoutGenre(a) + WithoutGenre(b)
  {
    if a == [] {
      assert a + b == b;
    } else {
      assert (a + b)[0] == a[0];
      assert (a + b)[1..] == a[1..] + b;
      if !Truthy(a[0].genre) {
        calc {
          WithoutGenre(a + b);
          [a[0]] + WithoutGenre(a[1..] + b);
          { WithoutGenreAppend(a[1..], b); }
          [a[0]] + (WithoutGenre(a[1..]) + WithoutGenre(b));
          ([a[0]] + WithoutGenre(a[1..])) + WithoutGenre(b);
        }
      } else {
        WithoutGenreAppend(a[1..], b);
      }
    }
  }

  /** Both lists keep the order the files were processed in. */
  lemma PartitionAppend(a: seq<Outcome>, b: seq<Outcome>)
    ensures WithGenre(a + b) == WithGenre(a) + WithGenre(b)
    ensures WithoutGenre(a + b) == WithoutGenre(a) + WithoutGenre(b)
  {
    WithGenreAppend(a, b);
    WithoutGenreAppend(a, b);
  }

  // ---------------------------------------------------------------------
  // Percentages
  // ---------------------------------------------------------------------

  /** `count * 100 // total` */
  function Percent(count: nat, total: nat): nat
    requires 0 < total && count <= total
  {
    count * 100 / total
  }

  /** The printed percentage is the floor of the exact one, and at most 100. */
  lemma PercentFloor(count: nat, total: nat)
    requires 0 < total && count <= total
    ensures var p := Percent(count, total);
            p <= 100 && p * total <= count * 100 < (p + 1) * total
  {
    var p := Percent(count, total);
    assert count * 100 == p * total + count * 100 % total;
    if p > 100 {
      MulStrict(100, p, total);
    }
  }

  /** Multiplying by a positive total keeps a strict order. */
  lemma MulStrict(a: int, b: int, t: int)
    requires 0 < t && a < b
    ensures a * t < b * t
  {
    assert b * t - a * t == (b - a) * t;
  }

  /** The two floors lose at most one point between them. */
  lemma PercentsSum(count: nat, total: nat)
    requires 0 < total && count <= total
    ensures 99 <= Percent(count, total) + Percent(total - count, total) <= 100
  {
    var p, q := Percent(count, total), Percent(total - count, total);
    PercentFloor(count, total);
    PercentFloor(total - count, total);
    assert count * 100 + (total - count) * 100 == 100 * total;
    assert (p + q) * total == p * total + q * total;
    assert (p + q + 2) * total == (p + 1) * total + (q + 1) * total;
    if p + q > 100 {
      MulStrict(100, p + q, total);
    }
    if p + q < 99 {
      MulStrict(p + q + 2, 100, total);
    }
  }

  lemma SevenFilesThreeTagged()
    ensures Percent(3, 7) == 42 && Percent(4, 7) == 57
  {
  }

  // ---------------------------------------------------------------------
  // Numbers as text
  // ---------------------------------------------------------------------

  predicate IsDigit(c: char)
  {
    '0' <= c <= '9'
  }

  predicate AllDigits(s: string)
  {
    forall k :: 0 <= k < |s| ==> IsDigit(s[k])
  }

  function DigitChar(d: nat): (c: char)
    requires d < 10
    ensures IsDigit(c)
  {
    ('0' as int + d) as char
  }

  /**
   * `str(n)` for a count: decimal digits, most significant first, with a
   * leading zero only for zero itself.
   */
  function NatToString(n: nat): (s: string)
    ensures s != [] && AllDigits(s)
    ensures s[0] == '0' <==> n == 0
    ensures n == 0 ==> s == "0"
  {
    if n < 10 then [DigitChar(n)] else NatToString(n / 10) + [DigitChar(n % 10)]
  }

  function ParseNat(s: string): nat
    requires AllDigits(s)
  {
    if s == [] then 0 else ParseNat(s[..|s| - 1]) * 10 + (s[|s| - 1] as int - '0' as int)
  }

  /** Every count printed in the report reads back as the same number. */
  lemma {:induction false} ParseNatToString(n: nat)
    ensures ParseNat(NatToString(n)) == n
  {
    if n >= 10 {
      var s := NatToString(n);
      assert s[..|s| - 1] == NatToString(n / 10);
      ParseNatToString(n / 10);
    } else {
      assert NatToString(n)[..0] == [];
    }
  }

  /**
   * Conversely, every digit string without a leading zero (other than "0"
   * itself) is what `str()` prints for the number it denotes.
   */
  lemma {:induction false} CanonicalReadsBack(s: string)
    requires s != [] && AllDigits(s) && (s[0] == '0' ==> s == "0")
    ensures NatToString(ParseNat(s)) == s
  {
    var init, d := s[..|s| - 1], s[|s| - 1] as int - '0' as int;
    assert IsDigit(s[|s| - 1]);
    if |s| == 1 {
      assert init == [];
      assert [DigitChar(d)] == s;
    } else {
      assert init[0] == s[0];
      CanonicalReadsBack(init);
      var m := ParseNat(init);
      assert m != 0 by {
        assert NatToString(m)[0] != '0';
      }
      assert (m * 10 + d) / 10 == m && (m * 10 + d) % 10 == d;
      assert init + [DigitChar(d)] == s;
    }
  }

  // ---------------------------------------------------------------------
  // Layout
  // ---------------------------------------------------------------------

  function Repeat(c: char, n: nat): (s: string)
    ensures |s| == n && forall k :: 0 <= k < n ==> s[k] == c
  {
    seq(n, k => c)
  }

  /** The width of the rules under the headings. */
  const RuleWidth: nat := 60

  /** The two horizontal rules, sixty characters wide. */
  const DoubleRule: string := Repeat('=', RuleWidth)
  const SingleRule: string := Repeat('-', RuleWidth)

  /** How Python formats a genre value inside an f-string. */
  function GenreText(g: Option<string>): string
  {
    match g
    case Some(s) => s
    case None => "None"
  }

  /** The two lines per file in the with-genre listing. */
  function WithLines(ws: seq<Outcome>): (r: seq<string>)
    ensures |r| == 2 * |ws|
  {
    if ws == [] then []
    else
      var o := ws[|ws| - 1];
      WithLines(ws[..|ws| - 1]) + ["  " + o.filename, "    → " + GenreText(o.genre)]
  }

  /** The one line per file in the without-genre listing. */
  function WithoutLines(ws: seq<Outcome>): (r: seq<string>)
    ensures |r| == |ws|
  {
    if ws == [] then []
    else WithoutLines(ws[..|ws| - 1]) + ["  " + ws[|ws| - 1].filename]
  }

  function Summary(rs: seq<Outcome>): (lines: seq<string>)
    requires rs != []
    ensures |lines| == 9
  {
    var total, k, m := |rs|, |WithGenre(rs)|, |WithoutGenre(rs)|;
    PartitionSizes(rs);
    ["Genre Report",
     DoubleRule,
     "Total files processed : " + NatToString(total),
     "With genre tag        : " + NatToString(k) + " (" + NatToString(Percent(k, total)) + "%)",
     "Without genre tag     : " + NatToString(m) + " (" + NatToString(Percent(m, total)) + "%)",
     DoubleRule,
     "",
     "✔ WITH GENRE (" + NatToString(k) + " files)",
     SingleRule]
  }

  function WithoutHeading(rs: seq<Outcome>): seq<string>
  {
    ["", "✘ WITHOUT GENRE (" + NatToString(|WithoutGenre(rs)|) + " files)", SingleRule]
  }

  /** The report, line by line (each line is written with a newline after it). */
  function ReportLines(rs: seq<Outcome>): seq<string>
    requires rs != []
  {
    Layout(Summary(rs), WithGenre(rs), WithoutHeading(rs), WithoutGenre(rs))
  }

  /** The summary, the with-genre listing, the second heading and the without-genre listing. */
  function Layout(front: seq<string>, ws: seq<Outcome>, back: seq<string>, ns: seq<Outcome>): seq<string>
  {
    front + WithLines(ws) + back + WithoutLines(ns)
  }

  /** The file contents: every line followed by a newline. */
  function FileText(lines: seq<string>): string
  {
    if lines == [] then "" else FileText(lines[..|lines| - 1]) + lines[|lines| - 1] + "\n"
  }

  lemma FileTextSnoc(lines: seq<string>, l: string)
    ensures FileText(lines + [l]) == FileText(lines) + l + "\n"
  {
    assert (lines + [l])[..|lines|] == lines;
  }

  lemma {:induction false} WithLinesAt(ws: seq<Outcome>, i: nat)
    requires i < |ws|
    ensures WithLines(ws)[2 * i] == "  " + ws[i].filename
    ensures WithLines(ws)[2 * i + 1] == "    → " + GenreText(ws[i].genre)
  {
    if i < |ws| - 1 {
      WithLinesAt(ws[..|ws| - 1], i);
    }
  }

  lemma {:induction false} WithoutLinesAt(ws: seq<Outcome>, i: nat)
    requires i < |ws|
    ensures WithoutLines(ws)[i] == "  " + ws[i].filename
  {
    if i < |ws| - 1 {
      WithoutLinesAt(ws[..|ws| - 1], i);
    }
  }

  /**
   * Where the two listings sit in any text laid out as nine fixed lines,
   * the with-genre listing, three fixed lines and the without-genre listing.
   */
  lemma Placement(front: seq<string>, ws: seq<Outcome>, back: seq<string>, ns: seq<Outcome>)
    requires |front| == 9 && |back| == 3
    requires forall o :: o in ws ==> o.genre.Some?
    ensures var lines := Layout(front, ws, back, ns);
            |lines| == 12 + 2 * |ws| + |ns| &&
            (forall i :: 0 <= i < |ws| ==>
               lines[9 + 2 * i] == "  " + ws[i].filename &&
               lines[10 + 2 * i] == "    → " + ws[i].genre.value) &&
            (forall i :: 0 <= i < |ns| ==> lines[12 + 2 * |ws| + i] == "  " + ns[i].filename)
  {
    var w, n := WithLines(ws), WithoutLines(ns);
    forall i | 0 <= i < |ws|
      ensures (front + w + back + n)[9 + 2 * i] == "  " + ws[i].filename
      ensures (front + w + back + n)[10 + 2 * i] == "    → " + ws[i].genre.value
    {
      IndexSecond(front, w, back, n, 2 * i);
      IndexSecond(front, w, back, n, 2 * i + 1);
      WithLinesAt(ws, i);
      assert ws[i] in ws;
    }
    forall i | 0 <= i < |ns|
      ensures (front + w + back + n)[12 + 2 * |ws| + i] == "  " + ns[i].filename
    {
      IndexFourth(front, w, back, n, i);
      WithoutLinesAt(ns, i);
    }
  }

  /**
   * Where everything sits in the report: twelve fixed lines, two per file
   * with a genre (name, then the genre after an arrow), one per file
   * without, each list in processing order.
   */
  lemma ReportShape(rs: seq<Outcome>)
    requires rs != []
    ensures var lines, ws, ns := ReportLines(rs), WithGenre(rs), WithoutGenre(rs);
            |lines| == 12 + 2 * |ws| + |ns| &&
            (forall i :: 0 <= i < |ws| ==>
               lines[9 + 2 * i] == "  " + ws[i].filename &&
               lines[10 + 2 * i] == "    → " + ws[i].genre.value) &&
            (forall i :: 0 <= i < |ns| ==> lines[12 + 2 * |ws| + i] == "  " + ns[i].filename)
  {
    Placement(Summary(rs), WithGenre(rs), WithoutHeading(rs), WithoutGenre(rs));
  }

  /** The total printed on the third line reads back as the number of results. */
  lemma ReportTotalReadsBack(rs: seq<Outcome>)
    requires rs != []
    ensures var line := ReportLines(rs)[2];
            |line| > 24 && AllDigits(line[24..]) && ParseNat(line[24..]) == |rs|
  {
    var line := ReportLines(rs)[2];
    assert line == "Total files processed : " + NatToString(|rs|);
    assert line[24..] == NatToString(|rs|);
    ParseNatToString(|rs|);
  }

  lemma {:induction false} FileTextAppend(a: seq<string>, b: seq<string>)
    ensures FileText(a + b) == FileText(a) + FileText(b)
  {
    if b == [] {
      assert a + b == a;
      assert FileText(a) + "" == FileText(a);
    } else {
      var b', l := b[..|b| - 1], b[|b| - 1];
      calc {
        FileText(a + b);
        { assert a + b == (a + b') + [l]; }
        FileText((a + b') + [l]);
        { FileTextSnoc(a + b', l); }
        FileText(a + b') + l + "\n";
        { FileTextAppend(a, b'); }
        (FileText(a) + FileText(b')) + l + "\n";
        FileText(a) + (FileText(b') + l + "\n");
        { FileTextSnoc(b', l); assert b' + [l] == b; }
        FileText(a) + FileText(b);
      }
    }
  }

  /** Writes each of the given lines with its newline. */
  method WriteLines(lines: seq<string>) returns (text: string)
    ensures text == FileText(lines)
  {
    text := "";
    for i := 0 to |lines|
      invariant text == FileText(lines[..i])
    {
      FileTextSnoc(lines[..i], lines[i]);
      assert lines[..i + 1] == lines[..i] + [lines[i]];
      text := text + lines[i] + "\n";
    }
    assert lines[..|lines|] == lines;
  }

  lemma WithLinesStep(ws: seq<Outcome>, i: nat)
    requires i < |ws|
    ensures FileText(WithLines(ws[..i + 1])) ==
            FileText(WithLines(ws[..i])) + "  " + ws[i].filename + "\n" + "    → " + GenreText(ws[i].genre) + "\n"
  {
    var before := WithLines(ws[..i]);
    var l1, l2 := "  " + ws[i].filename, "    → " + GenreText(ws[i].genre);
    assert ws[..i + 1][..i] == ws[..i];
    assert WithLines(ws[..i + 1]) == before + [l1, l2];
    assert before + [l1, l2] == (before + [l1]) + [l2];
    FileTextSnoc(before, l1);
    FileTextSnoc(before + [l1], l2);
  }

  /** The with-genre listing: the file name, then its genre after an arrow. */
  method WriteWithGenre(ws: seq<Outcome>) returns (text: string)
    ensures text == FileText(WithLines(ws))
  {
    text := "";
    for i := 0 to |ws|
      invariant text == FileText(WithLines(ws[..i]))
    {
      var o := ws[i];
      WithLinesStep(ws, i);
      text := text + "  " + o.filename + "\n";
      text := text + "    → " + GenreText(o.genre) + "\n";
    }
    assert ws[..|ws|] == ws;
  }

  /** The without-genre listing: one file name per line. */
  method WriteWithoutGenre(ws: seq<Outcome>) returns (text: string)
    ensures text == FileText(WithoutLines(ws))
  {
    text := "";
    for i := 0 to |ws|
      invariant text == FileText(WithoutLines(ws[..i]))
    {
      FileTextSnoc(WithoutLines(ws[..i]), "  " + ws[i].filename);
      text := text + "  " + ws[i].filename + "\n";
      assert ws[..i + 1][..i] == ws[..i];
    }
    assert ws[..|ws|] == ws;
  }

  /**
   * The report writer: the summary, then each file with a genre, then each
   * file without, every write appended to the report text.
   */
  method RenderReport(rs: seq<Outcome>) returns (text: string)
    requires rs != []
    ensures text == FileText(ReportLines(rs))
  {
    var withGenre := WithGenre(rs);
    var withoutGenre := WithoutGenre(rs);
    var summary := WriteLines(Summary(rs));
    var listed := WriteWithGenre(withGenre);
    var heading := WriteLines(WithoutHeading(rs));
    var unlisted := WriteWithoutGenre(withoutGenre);
    text := summary + listed + heading + unlisted;
    var a, b, c, d := Summary(rs), WithLines(withGenre), WithoutHeading(rs), WithoutLines(withoutGenre);
    FileTextAppend(a, b);
    FileTextAppend(a + b, c);
    FileTextAppend(a + b + c, d);
  }
}
