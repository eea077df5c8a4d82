/**
 * `process_file`: extract, skip when already tagged, resolve, write back.
 * The tags the extractor read are an input; the write-back is recorded as
 * an effect rather than performed, since `update_genre` swallows its own
 * errors and its outcome never reaches the caller.
 */
module Process {
  import opened Wrappers
  import opened Text
  import opened Resolver
  import opened Paths

  /** The tuple `extract_metadata` returns: (artist, title, comments, genre). */
  datatype Tags = Tags(artist: Option<string>, title: Option<string>,
                       comment: Option<string>, genre: Option<string>)

  /** What the extractor returns when it cannot read the file. */
  const NoTags := Tags(None, None, None, None)

  /** One line of the results list: (filename, genre or None). */
  datatype Outcome = Outcome(filename: string, genre: Option<string>)

  /**
   * Everything one call does: the outcome returned, the providers called
   * (in order) and the genre handed to `update_genre`, if any.
   */
  datatype FileRun = FileRun(outcome: Outcome, invoked: seq<string>, write: Option<string>)

  function ProcessFile(ps: seq<Provider>, path: string, tags: Tags): (r: FileRun)
    ensures r.outcome.filename == Basename(path)
    // the genre reported is either None or a non-empty string
    ensures r.outcome.genre.None? || Truthy(r.outcome.genre)
    // a write always carries the genre reported, and happens only after a lookup
    ensures r.write.Some? ==> r.outcome.genre == r.write && r.invoked != []
    // after a lookup the genre reported is the one written, or None when nothing was found
    ensures r.invoked != [] ==> r.outcome.genre == r.write
    // providers are consulted only for a file with artist, title and no genre
    ensures r.invoked != [] ==> Truthy(tags.artist) && Truthy(tags.title) && !Truthy(tags.genre)
  {
    var filename := Basename(path);
    if Truthy(tags.artist) && Truthy(tags.title) then
      if Truthy(tags.genre) then
        FileRun(Outcome(filename, tags.genre), [], None)
      else
        var found := Resolve(ps, tags.artist.value, tags.title.value);
        var called := Invoked(ps, tags.artist.value, tags.title.value);
        if found.Some? then
          assert called != [] by {
            assert ps != [];
            FirstAlwaysAsked(ps, tags.artist.value, tags.title.value);
          }
          FileRun(Outcome(filename, found), called, found)
        else
          FileRun(Outcome(filename, None), called, None)
    else
      FileRun(Outcome(filename, None), [], None)
  }

  /** Missing artist or title: outcome None, no provider call, no write. */
  lemma MissingKeySkipped(ps: seq<Provider>, path: string, tags: Tags)
    requires !Truthy(tags.artist) || !Truthy(tags.title)
    ensures ProcessFile(ps, path, tags) == FileRun(Outcome(Basename(path), None), [], None)
  {
  }

  /** An existing genre is returned as it is; nothing is looked up or written. */
  lemma AlreadyTagged(ps: seq<Provider>, path: string, tags: Tags)
    requires Truthy(tags.artist) && Truthy(tags.title) && Truthy(tags.genre)
    ensures ProcessFile(ps, path, tags) == FileRun(Outcome(Basename(path), tags.genre), [], None)
  {
  }

  /**
   * A resolved genre is written exactly once and reported, whatever became
   * of the write; an unresolved file is not written, is reported without a
   * genre, and every provider was asked.
   */
  lemma ResolvedWritten(ps: seq<Provider>, path: string, tags: Tags)
    requires Truthy(tags.artist) && Truthy(tags.title) && !Truthy(tags.genre)
    ensures var g := Resolve(ps, tags.artist.value, tags.title.value);
            var r := ProcessFile(ps, path, tags);
            r.write == g && r.outcome == Outcome(Basename(path), g) &&
            r.invoked == Invoked(ps, tags.artist.value, tags.title.value)
    ensures ProcessFile(ps, path, tags).write.None? ==>
            ProcessFile(ps, path, tags).invoked == Names(ps)
  {
    ResolveExhausted(ps, tags.artist.value, tags.title.value);
  }

  /**
   * Running again on a file whose resolved genre was stored gives the same
   * outcome with no provider call and no write.
   */
  lemma RerunIsQuiet(ps: seq<Provider>, ps': seq<Provider>, path: string, tags: Tags)
    requires ProcessFile(ps, path, tags).write.Some?
    ensures var first := ProcessFile(ps, path, tags);
            var second := ProcessFile(ps', path, tags.(genre := first.write));
            second == FileRun(first.outcome, [], None)
  {
  }

  /**
   * After a run, a file that reports a genre is not looked up again: it was
   * either tagged already or has just been written.
   */
  lemma TaggedRerunQuiet(ps: seq<Provider>, path: string, tags: Tags)
    requires Truthy(ProcessFile(ps, path, tags).outcome.genre)
    ensures ProcessFile(ps, path, Retagged(ps, path, tags)).invoked == []
  {
    if ProcessFile(ps, path, tags).write.Some? {
      RerunIsQuiet(ps, ps, path, tags);
    } else {
      assert Retagged(ps, path, tags) == tags;
    }
  }

  /** A file that reports no genre is left as it was, and the next run asks the same providers. */
  lemma UntaggedRerunRepeats(ps: seq<Provider>, path: string, tags: Tags)
    requires !Truthy(ProcessFile(ps, path, tags).outcome.genre)
    ensures ProcessFile(ps, path, Retagged(ps, path, tags)) == ProcessFile(ps, path, tags)
  {
  }

  /** The tags a file carries after a run: the written genre, if one was written. */
  function Retagged(ps: seq<Provider>, path: string, tags: Tags): (t: Tags)
    ensures t.artist == tags.artist && t.title == tags.title
  {
    var run := ProcessFile(ps, path, tags);
    if run.write.Some? then tags.(genre := run.write) else tags
  }
}
