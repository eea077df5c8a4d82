# mutagen-tagger, modelled in Dafny

mutagen-tagger fills in the genre tag of MP3 and FLAC files. It reads artist, title
and genre from each file. A file that already has a genre is left alone. Otherwise the
tool asks a chain of online providers in a fixed priority order: Spotify, Last.fm,
Discogs, then Wikipedia (first by track, then by artist). It keeps the first non-empty
answer and writes it back to the file. At the end it writes a plain-text report that
splits the files into those with a genre and those without.

This project models the command-line tagger `mutagen-tagger.py`:

- `Resolver`: the fallback resolver `get_genre`. It has a recursive specification
  (`Resolve`, `Invoked`, `FirstHit`) and a loop (`GetGenre`) proved equal to it.
- `Normalise`: what each provider does with the data it receives. This covers the
  title-cased comma join, the Last.fm stoplist, the Discogs genres + styles
  concatenation, and the Wikipedia infobox cell normaliser (split on `|` and `,`,
  strip, drop blanks, title-case).
- `Text`: the string primitives those normalisers rely on: ASCII `lower`, `strip`,
  `', '.join` and `re.split(r'[\|,]', …)`.
- `Paths`: the extension filter (`SUPPORTED_EXTENSIONS`, `is_flac`), plus
  `os.path.basename`, `dirname` and `join` for POSIX paths.
- `Metadata`: `extract_metadata` and `update_genre` over the tags of one file, seen as
  mutagen's easy interface presents them (a map from tag names to lists of values).
- `Process`: `process_file`, as a function that returns the outcome, the providers it
  called and the genre it asked `update_genre` to write.
- `Chain`: how the provider chain is built at start-up from the `--no-*` switches,
  the credentials and the optional packages. This is both a function and a method.
- `Report`: the with/without partition, the integer percentages and the report text,
  line by line. `RenderReport` builds the text with loops.
- `Batch`: the driver `main`. It picks the files (sorted non-recursive listing,
  `os.walk`, or a single file), processes them in order, logs the `Found:` messages,
  records the writes, and picks the report path. `Run` is a method proved equal to the
  specification `RunSpec`.
- `Order`: the code-point order that `sorted()` uses on file names, and an insertion
  sort proved to return a sorted permutation.

The outside world is given as values:

- each provider's answer for an (artist, track) pair: it returns a value or raises;
- the tags of each file as the tag library opens them, or nothing when it cannot;
  the driver takes the tags `extract_metadata` reads from each path;
- whether a path is a regular file;
- the directory listing, and the sequence of directories `os.walk` yields;
- whether the Spotify client could be built and which optional packages import;
- the credential strings;
- `str.title()`, passed as a function parameter.

The driver records each `update_genre` call and the report file as effects; it does
not perform them. `Metadata.UpdateGenre` gives the tags a file holds after the call.

Behaviour of the source that the model keeps:

- `_fetch_wiki_genre` returns the empty string, not None, when a genre cell has only
  blank items (lines 119-120). The resolver treats it as no result and moves on.
- `os.walk` yields directories in file-system order. Only the file names inside each
  directory are sorted (line 342).
- `extract_metadata` reads the genre of a FLAC file from `genre` and of any other file
  from `TCON` (lines 190-195). `update_genre` always writes `genre` (line 213). See
  "## Findings".

## Model

| member | source | states |
|---|---|---|
| Resolver.Yield | mutagen-tagger.py:151-157 | a provider call counts as a hit exactly when it returns a truthy string; a raised exception or a None or empty result counts as a miss |
| Resolver.Resolve | mutagen-tagger.py:145-158 | the resolved genre is either None or a non-empty string |
| Resolver.FirstAlwaysAsked | mutagen-tagger.py:150-152 | the first provider of a non-empty chain is always called, before any other |
| Resolver.FirstHit | mutagen-tagger.py:150-155 | every provider before the first hit misses, and the provider at that index hits |
| Resolver.ResolveFirst | mutagen-tagger.py:150-155 | if providers 0..i-1 miss and provider i hits, the result is provider i's answer, and exactly providers 0..i were called, in order |
| Resolver.ResolveExhausted | mutagen-tagger.py:150-158 | the result is None iff every provider misses; in that case every provider was called, in order |
| Resolver.NoCallAfterHit | mutagen-tagger.py:153-155 | once provider i hits, no provider after i is called, and the calls form a prefix of the chain |
| Resolver.GetGenre | mutagen-tagger.py:145-158 | the loop returns the same genre as `Resolve` and calls the same providers as `Invoked` |
| Text.Lower | mutagen-tagger.py:55 | the result keeps the length, is the character-wise lower-case map and has no upper-case ASCII letter |
| Text.LowerIdempotent | mutagen-tagger.py:181 | lower-casing twice is lower-casing once |
| Text.Strip | mutagen-tagger.py:119 | the result has no leading or trailing whitespace, is no longer than the input, and is empty iff the input is all whitespace |
| Text.StripInfix | mutagen-tagger.py:119 | the result is the stretch of the input between its leading and its trailing whitespace: everything before and after it is whitespace |
| Text.JoinWith | mutagen-tagger.py:31 | the joined string starts with the first item and ends with the last |
| Text.JoinLength | mutagen-tagger.py:31 | the joined string holds every character of the items plus one separator fewer than there are items |
| Text.JoinEmpty | mutagen-tagger.py:120 | with a non-empty separator, a join is empty iff the list is empty or is one empty string |
| Text.Split | mutagen-tagger.py:117 | splitting on the bar and the comma gives one more piece than there are separators, and no piece contains a separator |
| Text.SplitFirst | mutagen-tagger.py:117 | the first piece is everything before the first separator; the other pieces are the split of what follows it; a string without separators is one piece |
| Text.SplitJoin | mutagen-tagger.py:117 | splitting the join of separator-free pieces on one separator character gives those pieces back |
| Order.LexLeTotal | mutagen-tagger.py:335 | the code-point order on names is total |
| Order.LexLeTransitive | mutagen-tagger.py:335 | the code-point order on names is transitive |
| Order.SortNames | mutagen-tagger.py:335 | `sorted()` returns a sorted permutation of the names |
| Order.SortDistinct | mutagen-tagger.py:335 | sorting names that are all different keeps them all different |
| Normalise.Present | mutagen-tagger.py:29-31 | an empty list gives no result; any other list gives the `, `-join of its title-cased terms, in order |
| Normalise.TitledCons | mutagen-tagger.py:31 | title-casing works term by term from the front: the first term's title, then the rest's |
| Normalise.SpotifyGenres | mutagen-tagger.py:28-31 | no result iff the artist has no genres; otherwise the `, `-join of the title-cased genres, a single genre coming back title-cased alone |
| Normalise.LastfmKeep | mutagen-tagger.py:52-55 | a tag is kept iff its lower-cased name is not among the thirteen stoplist words; with `LastfmKeepOne` and `LastfmKeepAppend` this fixes the filter tag by tag, order kept |
| Normalise.LastfmKeepOne | mutagen-tagger.py:54-55 | a single tag is dropped iff its lower-cased name is on the stoplist |
| Normalise.LastfmKeepAppend | mutagen-tagger.py:54-55 | the filter works tag by tag: filtering a concatenation concatenates the filtered parts |
| Normalise.LastfmGenres | mutagen-tagger.py:54-58 | no result iff every top tag is on the stoplist; otherwise the `, `-join of the kept tags, title-cased, in order |
| Normalise.DiscogsCombined | mutagen-tagger.py:71-73 | the combined list is the genres followed by the styles, with a missing attribute or None read as empty |
| Normalise.DiscogsGenres | mutagen-tagger.py:71-76 | no result iff both genres and styles are empty; otherwise the `, `-join of the title-cased genres then styles |
| Normalise.WikiItems | mutagen-tagger.py:111-117 | list items are used as they are when the cell has any; otherwise the items are exactly the pieces of the cell text split at every bar and comma, one more than there are separators |
| Normalise.CleanItems | mutagen-tagger.py:119 | no more genres come out than items went in |
| Normalise.CleanItemsEmpty | mutagen-tagger.py:119 | nothing survives cleaning iff every item strips to nothing |
| Normalise.CleanItemsAppend | mutagen-tagger.py:119 | cleaning works item by item: cleaning a concatenation concatenates the cleaned parts |
| Normalise.CleanItemsHead | mutagen-tagger.py:119 | the first cleaned genre is the title-cased, stripped form of some non-blank item |
| Normalise.WikiGenres | mutagen-tagger.py:119-120 | the result is the `, `-join of the cell's items, stripped, with blanks dropped, and title-cased; a cell whose items are all blank gives the empty string, not None |
| Normalise.WikiGenresEmpty | mutagen-tagger.py:119-120 | the cell's genre string is empty iff every item is blank (given a title function that keeps non-empty strings non-empty) |
| Normalise.WikiFromListItems | mutagen-tagger.py:112-120 | a cell whose list items are already stripped and non-empty gives the `, `-join of those items, title-cased |
| Normalise.WikiFromText | mutagen-tagger.py:115-120 | a cell without list items whose text is the `, `-join of clean terms gives the `, `-join of those terms, title-cased |
| Normalise.StripPadded | mutagen-tagger.py:119 | a clean term followed by the space before a bar strips back to the term |
| Normalise.BarReadsBack | mutagen-tagger.py:116-120 | a cell text written as clean terms joined by a space, a bar and a space, splits and cleans back to exactly those terms, title-cased |
| Normalise.WikiFromElements | mutagen-tagger.py:115-120 | a cell without list items whose text is clean terms joined by a space, a bar and a space, gives the `, `-join of those terms, title-cased |
| Normalise.WikiReadsBackJoin | mutagen-tagger.py:116-120 | a cell text written as the `, `-join of stripped, separator-free, non-empty terms is read back as exactly those terms, title-cased |
| Normalise.PresentSplitsBack | mutagen-tagger.py:31 | the value any list adapter returns splits back at its commas into the title-cased terms, when title-casing leaves each term clean |
| Paths.SupportedIff | mutagen-tagger.py:12 | a name is accepted iff its lower-cased form ends in `.mp3` or `.flac` |
| Paths.FlacIsSupported | mutagen-tagger.py:180-181 | every path `is_flac` accepts passes the extension filter |
| Paths.SupportedIgnoresCase | mutagen-tagger.py:337 | the extension filter and `is_flac` ignore letter case |
| Paths.UpperCaseExamples | mutagen-tagger.py:337 | `Song.MP3` and `a.Flac` are accepted |
| Paths.UnsupportedExamples | mutagen-tagger.py:337 | `track.wav` and a bare `mp3` are refused, and `x.mp3` is not FLAC |
| Paths.LastSlash | mutagen-tagger.py:230 | the last component starts after the last slash: nothing from there on is a slash, and the character before it is one |
| Paths.LastSlashUnique | mutagen-tagger.py:230 | that split point is the only one with those properties |
| Paths.Basename | mutagen-tagger.py:230 | the basename has no slash, is a suffix of the path, and is either the whole path or starts right after a slash |
| Paths.Dirname | mutagen-tagger.py:365 | the dirname is the part of the path before its last slash; its trailing slashes are dropped unless nothing but slashes is left, in which case it is kept whole |
| Paths.BasenameJoin | mutagen-tagger.py:344 | a file name joined onto a directory is that path's basename |
| Paths.JoinPrefix | mutagen-tagger.py:336 | every file name is joined onto the same directory prefix |
| Paths.NamesDiffer | mutagen-tagger.py:336 | different file names joined onto one directory give different paths |
| Paths.HeadsDiffer | mutagen-tagger.py:344 | file names joined onto directories with different join prefixes give different paths |
| Paths.BasenameExamples | mutagen-tagger.py:230 | the basename and join of sample paths |
| Paths.DirnameExamples | mutagen-tagger.py:365 | the dirname of a nested path and of a bare file name |
| Paths.DirnameDoubleSlash | mutagen-tagger.py:365 | doubled slashes before the file name are dropped from the dirname |
| Paths.DirnameRoot | mutagen-tagger.py:365 | a file directly under `/` has `/` as its dirname |
| Metadata.CommentKey | mutagen-tagger.py:190-194 | the comment is never read from the tag the genre is written to |
| Metadata.ReadTags | mutagen-tagger.py:184-206 | the result is a real tuple exactly when the file opened, none of the four reads raised and the artist and title read are truthy; that tuple holds the first value (or None) under `artist`, `title`, the comment tag and the genre tag; otherwise it is the all-None tuple |
| Metadata.UpdateGenre | mutagen-tagger.py:209-219 | a file that opened keeps every tag but `genre`, and `genre` now holds exactly the new value; a file that did not open stays unopened |
| Metadata.ReadTagsUntouched | mutagen-tagger.py:209-213 | a genre written under `genre` leaves every read under other tag names as it was |
| Metadata.ReadTagsGenre | mutagen-tagger.py:190-213 | reading the genre from `genre` after a write finds the written value and every other tag unchanged |
| Metadata.FlacReadsBack | mutagen-tagger.py:190-213 | a FLAC file reads back the genre written to it, with artist, title and comment unchanged |
| Metadata.OtherWriteUnseen | mutagen-tagger.py:193-213 | any other file reads exactly the same tags after the write as before it |
| Metadata.OtherRerunRepeats | mutagen-tagger.py:193-245 | as written, processing a non-FLAC file again after its write repeats the first run exactly: the same providers are asked and the same genre is written |
| Metadata.Mp3RerunExample | mutagen-tagger.py:193-245 | `song.mp3` with artist `A`, title `T` and a provider always answering `Rock`: the second run asks that provider again and writes `Rock` again |
| Metadata.FlacRerunQuiet | mutagen-tagger.py:190-245 | a FLAC file whose genre was written is processed the next time with the same outcome, no lookup and no write |
| Metadata.IntendedReadsBack | mutagen-tagger.py:190-213 | reading the genre from `genre` for every file, each file reads back the genre written to it |
| Metadata.IntendedRerunQuiet | mutagen-tagger.py:190-245 | reading the genre from `genre` for every file, any written file is processed the next time with the same outcome, no lookup and no write |
| Process.ProcessFile | mutagen-tagger.py:226-248 | the filename is the path's basename; the genre is None or non-empty; a write carries the reported genre and follows a lookup; after a lookup the reported genre is the one written, or None; providers are consulted only when artist and title are set and genre is not |
| Process.MissingKeySkipped | mutagen-tagger.py:233-248 | missing artist or title gives (filename, None), with no lookup and no write |
| Process.AlreadyTagged | mutagen-tagger.py:234-236 | an existing genre is returned as it is, with no lookup and no write |
| Process.ResolvedWritten | mutagen-tagger.py:238-245 | the resolver's answer is written and reported; an unresolved file is not written and every provider was asked |
| Process.TaggedRerunQuiet | mutagen-tagger.py:234-242 | a file that reported a genre, already set or just written, is not looked up again on the next run |
| Process.UntaggedRerunRepeats | mutagen-tagger.py:229-248 | a file that reported no genre was not written, so the next run repeats it: the same providers asked, the same outcome |
| Process.RerunIsQuiet | mutagen-tagger.py:234-242 | reprocessing a file whose tags now carry the written genre gives the same outcome, with no lookup and no write |
| Process.Retagged | mutagen-tagger.py:240-242 | the tags after a run keep the artist and the title |
| Chain.ChainShape | mutagen-tagger.py:268-323 | a provider is in the chain iff its switch is off and its client, credentials and packages are present; the chain follows the fixed priority order; the two Wikipedia entries come and go together |
| Chain.ChainMembers | mutagen-tagger.py:271-323 | membership in the chain is exactly the enabling condition of each family |
| Chain.ChainRanked | mutagen-tagger.py:268-323 | the chain is strictly ordered Spotify, Last.fm, Discogs, Wikipedia track, Wikipedia artist |
| Chain.BlocksRanked | mutagen-tagger.py:268-323 | whichever of the optional blocks are appended, they stay in priority order, and the two Wikipedia entries keep their order |
| Chain.ChainEmptyIff | mutagen-tagger.py:325-327 | the chain is empty iff no provider is enabled |
| Chain.BuildChain | mutagen-tagger.py:268-323 | the appends build the specified chain: membership iff enabled, strictly ranked |
| Chain.SourceNamesDiffer | mutagen-tagger.py:278-320 | different providers are logged under different names |
| Chain.ProviderNames | mutagen-tagger.py:278-320 | the providers the resolver walks carry the name of exactly the enabled sources, each name once |
| Report.WithGenre | mutagen-tagger.py:355 | keeps exactly the results with a truthy genre |
| Report.WithoutGenre | mutagen-tagger.py:356 | keeps exactly the results without a truthy genre |
| Report.PartitionSizes | mutagen-tagger.py:355-357 | the two lists partition the results: their sizes add up to the total |
| Report.PartitionAppend | mutagen-tagger.py:355-356 | both filters work result by result and keep the processing order |
| Report.PercentFloor | mutagen-tagger.py:371-372 | `count*100//total` is at most 100 and is the floor of the exact percentage |
| Report.PercentsSum | mutagen-tagger.py:371-372 | the two printed percentages add up to 99 or 100 |
| Report.SevenFilesThreeTagged | mutagen-tagger.py:371-372 | 3 of 7 files prints 42% and 4 of 7 prints 57% |
| Report.NatToString | mutagen-tagger.py:370 | a count is rendered as a non-empty string of decimal digits with no leading zero; `0` only for zero |
| Report.ParseNatToString | mutagen-tagger.py:370 | reading the rendered count back gives the count |
| Report.CanonicalReadsBack | mutagen-tagger.py:370 | every digit string without a leading zero is the rendering of the number it denotes |
| Report.Placement | mutagen-tagger.py:374-384 | after nine heading lines, file i with a genre sits on lines 9+2i and 10+2i, and after three more heading lines file i without a genre sits on its own line |
| Report.ReportShape | mutagen-tagger.py:367-384 | the report has 12 + 2k + m lines; each file with a genre appears as its name line followed by its arrow-and-genre line; each file without one appears under the second heading; all in processing order |
| Report.ReportTotalReadsBack | mutagen-tagger.py:370 | the total line reads back as the number of results |
| Report.FileTextAppend | mutagen-tagger.py:367-384 | writing two blocks of lines writes their concatenation |
| Report.WriteLines | mutagen-tagger.py:368-373 | the loop writes every line followed by a newline |
| Report.WriteWithGenre | mutagen-tagger.py:377-379 | the loop writes the two lines of each file with a genre |
| Report.WriteWithoutGenre | mutagen-tagger.py:383-384 | the loop writes the name line of each file without a genre |
| Report.RenderReport | mutagen-tagger.py:354-384 | for a non-empty results list, the text written is the specified report |
| Batch.ReportPath | mutagen-tagger.py:359-365 | a non-empty `--report` is used as it is; otherwise `genre_report.txt` joined onto the audio directory, or onto the dirname of the audio file |
| Batch.Processed | mutagen-tagger.py:331-348 | one result per processed path |
| Batch.ProcessedAt | mutagen-tagger.py:339 | result k is the outcome of `process_file` on path k |
| Batch.ProcessedOne | mutagen-tagger.py:339 | processing one path gives its outcome and the write it asked for, if any |
| Batch.ProcessDirectory | mutagen-tagger.py:342-346 | the inner loop over one walked directory gives the results, writes and messages for its sorted, filtered files |
| Batch.ProcessedAppend | mutagen-tagger.py:340-346 | processing two lists of paths one after the other gives the concatenated results and writes |
| Batch.ProcessFlat | mutagen-tagger.py:334-339 | the non-recursive loop gives the results, writes and messages for the sorted, filtered listing |
| Batch.ProcessWalk | mutagen-tagger.py:340-346 | the recursive loop gives the results, writes and messages for every walked directory in turn |
| Batch.MakeReport | mutagen-tagger.py:354-367 | a report is produced iff there are results, at the chosen path, with the specified text |
| Batch.Collect | mutagen-tagger.py:330-351 | the processing phase yields exactly the specified results, writes and messages, or rejects the path |
| Batch.Run | mutagen-tagger.py:268-384 | a whole run is exactly `RunSpec` |
| Batch.NoProvidersIff | mutagen-tagger.py:325-327 | the run stops before any file work iff no provider is enabled |
| Batch.InvalidPathIff | mutagen-tagger.py:347-351 | a non-directory path is rejected iff it is not a regular file with a supported extension |
| Batch.FlatCandidatesSound | mutagen-tagger.py:335-337 | every path picked in non-recursive mode is a listing entry joined onto the directory, a regular file, with a supported name |
| Batch.FlatCandidatesComplete | mutagen-tagger.py:335-337 | every listing entry that is a regular file with a supported name is picked |
| Batch.FlatCandidatesDistinct | mutagen-tagger.py:335-336 | a listing whose entries are all different gives paths that are all different |
| Batch.DirCandidatesSound | mutagen-tagger.py:342-344 | every path picked in a walked directory is one of its file names, supported, joined onto its root |
| Batch.DirCandidatesComplete | mutagen-tagger.py:342-344 | every supported file name of a walked directory is picked |
| Batch.DirCandidatesDistinct | mutagen-tagger.py:342-344 | a directory whose file names are all different gives paths that are all different |
| Batch.WalkCandidatesSound | mutagen-tagger.py:341-344 | every path picked in recursive mode is a supported file name of some walked directory, joined onto its root |
| Batch.WalkCandidatesComplete | mutagen-tagger.py:341-344 | every supported file name of every walked directory is picked |
| Batch.WalkCandidatesDistinct | mutagen-tagger.py:341-344 | when the walked directories have different join prefixes and each lists its file names once, no path is picked twice |
| Batch.FoundDistinct | mutagen-tagger.py:338 | different paths give different `Found:` messages |
| Batch.DirectoryCollected | mutagen-tagger.py:333-346 | in directory mode every processed file has a supported name; a `Found:` message names it; result k is the outcome for the k-th path found |
| Batch.DirectoryOnce | mutagen-tagger.py:333-346 | in directory mode, when the listing and each walked directory name every file once and the walked directories differ, no file is found twice |
| Batch.CandidateReported | mutagen-tagger.py:333-346 | every picked path has a `Found:` message and, at the same position, its `process_file` outcome |
| Batch.FlatRunFinds | mutagen-tagger.py:334-339 | a non-recursive run finds and processes every regular listing entry with a supported name |
| Batch.WalkRunFinds | mutagen-tagger.py:340-346 | a recursive run finds and processes every supported file name of every walked directory |
| Batch.DirectoryRun | mutagen-tagger.py:333-357 | a directory run always completes, logs one message per result, and writes a report iff some file was processed |
| Batch.FlatCandidatesSorted | mutagen-tagger.py:335-337 | without recursion, the files are processed in sorted path order |
| Batch.FlatRunSorted | mutagen-tagger.py:335 | a non-recursive directory run visits its files in sorted order |
| Batch.RerunSameResults | mutagen-tagger.py:234-242 | when every file's tags now carry the genre written to it, a second run gives the same results and writes nothing; it asks no provider about a file that reported a genre and the same providers as before about one that did not, so it makes no provider call at all when every file ended up tagged |
| Batch.FlacRetagged | mutagen-tagger.py:190-213 | a FLAC file, read again after the run, carries the genre written to it |
| Batch.IntendedRetagged | mutagen-tagger.py:190-213 | reading the genre from `genre` for every file, each file read again after the run carries the genre written to it |
| Batch.FlacRerunSameResults | mutagen-tagger.py:333-346 | a second run over FLAC files gives the same results and writes nothing; no provider is asked about a file that reported a genre, and the same providers as before about one that did not |
| Batch.OtherRerunSameWrites | mutagen-tagger.py:333-346 | as written, a second run over non-FLAC files repeats the first exactly: same results, same writes, and the same providers asked about every file |
| Batch.IntendedRerunSameResults | mutagen-tagger.py:333-346 | reading the genre from `genre` for every file, a second run over any files gives the same results and writes nothing; no provider is asked about a file that reported a genre, and the same providers as before about one that did not |

## Findings

| source | as written | input that shows it | evidently intended | confidence | as-written member | corrected member |
|---|---|---|---|---|---|---|
| mutagen-tagger.py:193-195 | for a file that is not FLAC, `extract_metadata` reads the genre from `TCON` through the easy interface, while `update_genre` writes it to `genre` (line 213), so a written genre is never read back | `song.mp3` with artist `A`, title `T` and no genre, and a chain of one provider that always answers `Rock`: every run asks the provider and writes `Rock` again | read the genre from `genre` for every file, as for FLAC, so that a tagged file is skipped on the next run | medium, not executed | Metadata.Mp3RerunExample | Metadata.IntendedRerunQuiet |

`Metadata.OtherRerunRepeats` and `Batch.OtherRerunSameWrites` state the as-written
behaviour for any non-FLAC file and any batch of them. `Metadata.IntendedReadsBack`
and `Batch.IntendedRerunSameResults` state the corrected behaviour. FLAC files are
not affected (`Metadata.FlacRerunQuiet`, `Batch.FlacRerunSameResults`).

## Left out

- `GUI.py` is not part of this model.
- The provider network calls are not modelled: Spotify search, track and artist requests, Last.fm top tags, Discogs search, and Wikipedia search, HTTP fetch and infobox row lookup (lines 21-28, 49-50, 67-70, 89-110). Each provider's answer for an (artist, track) pair is an input that either returns or raises. The normalisers above model what the provider does with the data it receives.
- The Spotify HTTP 429 retry (lines 32-37) is not modelled, because it sleeps and retries without bound. The outcome of the call that finally returns is an input.
- `output_metatdata` (lines 165-177) is not modelled: it only logs the tags.
- Metadata.ReadTags: opening a file through the tag library is an input (the tags it presents, or nothing when the file is not recognised or opening raised). Which tag names the easy interface presents for each format is part of that input.
- Metadata.UpdateGenre: a failed save is not modelled; `update_genre` only logs it, and the tags are then as before.
- Batch.RerunSameResults: it takes as given that each file's tags are read back with the written genre. That holds for FLAC files (`Batch.FlacRetagged`) and not for the others (see "## Findings").
- Logging is not modelled, except the `Found:` messages. Neither are the `INFO:` format, `os.path.expanduser`, argparse, or the opening and writing of the report file. The report is returned as its path and its text.
- Text.Lower: only ASCII letters are lower-cased; Python's full Unicode case mapping is not modelled.
- Text.Strip: whitespace is the ASCII set `str.strip()` removes; other Unicode spaces are not stripped.
- `str.title()` is a function parameter, not a definition. The lemmas hold for every title function, or for every one that keeps non-empty strings non-empty.
- Order.SortNames: names are compared by code point, as `sorted()` does. No locale ordering is modelled.
- The order in which `os.walk` yields directories is an input: it depends on the file system. Only the file names inside each directory are sorted.
- Chain.BuildChain: exceptions other than `ImportError` from the Last.fm and Discogs client constructors (lines 290, 304) are not modelled. They would abort the program. Whether the Spotify client could be built is an input.
- Paths.Basename, Paths.Dirname: POSIX paths with `/` only; no drive letters or backslashes.
