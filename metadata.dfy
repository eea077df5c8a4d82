/**
 * `extract_metadata` and `update_genre`, over the tags of one file as
 * mutagen's easy interface presents them: a map from tag names to lists of
 * values. Opening the file is an input: None when mutagen does not
 * recognise it or opening raised.
 */
module Metadata {
  import opened Wrappers
  import opened Text
  import opened Paths
  import opened Resolver
  import opened Process

  /** The tags of an opened file: each name maps to its list of values. */
  type Store = map<string, seq<string>>

  /** `audiofile.get(key, [None])[0]`: a value or None, or an IndexError on an empty list. */
  datatype Read = Value(v: Option<string>) | Failed

  function First(store: Store, key: string): Read
  {
    if key !in store then Value(None)
    else if store[key] == [] then Failed
    else Value(Some(store[key][0]))
  }

  /** The tag the comment is read from: `comment` for FLAC, the ID3 frame name otherwise. */
  function CommentKey(path: string): (k: string)
    ensures k != "genre"
  {
    if IsFlac(path) then "comment" else "COMM::eng"
  }

  /** The tag the genre is read from: `genre` for FLAC, the ID3 frame name `TCON` otherwise. */
  function GenreKey(path: string): string
  {
    if IsFlac(path) then "genre" else "TCON"
  }

  /** None of the four reads raises: no tag asked for holds an empty list. */
  predicate ReadsCleanly(s: Store, commentKey: string, genreKey: string)
  {
    First(s, "artist").Value? && First(s, "title").Value? &&
    First(s, commentKey).Value? && First(s, genreKey).Value?
  }

  /**
   * Artist, title, comment and genre read under the given tag names. A
   * file that did not open, a read that raised, or a missing artist or
   * title gives the all-None tuple.
   */
  function ReadTags(file: Option<Store>, commentKey: string, genreKey: string): (t: Tags)
    ensures t != NoTags <==>
              file.Some? && ReadsCleanly(file.value, commentKey, genreKey) &&
              Truthy(First(file.value, "artist").v) && Truthy(First(file.value, "title").v)
    ensures t != NoTags ==>
              t == Tags(First(file.value, "artist").v, First(file.value, "title").v,
                        First(file.value, commentKey).v, First(file.value, genreKey).v)
    ensures t == NoTags || (Truthy(t.artist) && Truthy(t.title))
    ensures t.genre.Some? ==>
              file.Some? && genreKey in file.value && file.value[genreKey] != [] &&
              t.genre.value == file.value[genreKey][0]
    ensures t.artist.Some? ==>
              file.Some? && "artist" in file.value && file.value["artist"] != [] &&
              t.artist.value == file.value["artist"][0]
  {
    if file.None? then NoTags
    else
      var s := file.value;
      var artist, title := First(s, "artist"), First(s, "title");
      var comment, genre := First(s, commentKey), First(s, genreKey);
      if artist.Failed? || title.Failed? || comment.Failed? || genre.Failed? then NoTags
      else if Truthy(artist.v) && Truthy(title.v) then Tags(artist.v, title.v, comment.v, genre.v)
      else NoTags
  }

  /** `extract_metadata` as written: FLAC files and all others read different tag names. */
  function Extract(path: string, file: Option<Store>): Tags
  {
    ReadTags(file, CommentKey(path), GenreKey(path))
  }

  /** `extract_metadata` reading the genre under the name `update_genre` writes it to. */
  function ExtractIntended(path: string, file: Option<Store>): Tags
  {
    ReadTags(file, CommentKey(path), "genre")
  }

  /** `update_genre`: the genre tag set to the one value; a file that did not open is left alone. */
  function UpdateGenre(file: Option<Store>, genre: string): (r: Option<Store>)
    ensures r.Some? <==> file.Some?
    ensures r.Some? ==> r.value.Keys == file.value.Keys + {"genre"} && r.value["genre"] == [genre]
    ensures r.Some? ==> forall k :: k in file.value && k != "genre" ==> r.value[k] == file.value[k]
  {
    if file.Some? then Some(file.value["genre" := [genre]]) else None
  }

  /** A written genre leaves every read under another tag name as it was. */
  lemma ReadTagsUntouched(file: Option<Store>, commentKey: string, genreKey: string, genre: string)
    requires commentKey != "genre" && genreKey != "genre"
    ensures ReadTags(UpdateGenre(file, genre), commentKey, genreKey) == ReadTags(file, commentKey, genreKey)
  {
    if file.Some? {
      var s, s' := file.value, UpdateGenre(file, genre).value;
      assert First(s', "artist") == First(s, "artist");
      assert First(s', "title") == First(s, "title");
      assert First(s', commentKey) == First(s, commentKey);
      assert First(s', genreKey) == First(s, genreKey);
    }
  }

  /** Reading the genre where it was written finds the written genre, and the other tags as they were. */
  lemma ReadTagsGenre(file: Option<Store>, commentKey: string, genre: string)
    requires commentKey != "genre" && ReadTags(file, commentKey, "genre") != NoTags
    ensures ReadTags(UpdateGenre(file, genre), commentKey, "genre") ==
            ReadTags(file, commentKey, "genre").(genre := Some(genre))
  {
    var s, s' := file.value, UpdateGenre(file, genre).value;
    assert First(s', "artist") == First(s, "artist");
    assert First(s', "title") == First(s, "title");
    assert First(s', commentKey) == First(s, commentKey);
    assert First(s', "genre") == Value(Some(genre));
  }

  /** A FLAC file reads back the genre written to it. */
  lemma FlacReadsBack(path: string, file: Option<Store>, genre: string)
    requires IsFlac(path) && Extract(path, file) != NoTags
    ensures Extract(path, UpdateGenre(file, genre)) == Extract(path, file).(genre := Some(genre))
  {
    ReadTagsGenre(file, "comment", genre);
  }

  /** Reading the genre under the name it is written to finds it, for every kind of file. */
  lemma IntendedReadsBack(path: string, file: Option<Store>, genre: string)
    requires ExtractIntended(path, file) != NoTags
    ensures ExtractIntended(path, UpdateGenre(file, genre)) == ExtractIntended(path, file).(genre := Some(genre))
  {
    if IsFlac(path) {
      ReadTagsGenre(file, "comment", genre);
    } else {
      ReadTagsGenre(file, "COMM::eng", genre);
    }
  }

  /** Any other file never sees the genre written to it: what it reads does not change. */
  lemma OtherWriteUnseen(path: string, file: Option<Store>, genre: string)
    requires !IsFlac(path)
    ensures Extract(path, UpdateGenre(file, genre)) == Extract(path, file)
  {
    ReadTagsUntouched(file, "COMM::eng", "TCON", genre);
  }

  /** The file after `process_file` ran on it, reading the genre under `genreKey`. */
  function Written(ps: seq<Provider>, path: string, file: Option<Store>, genreKey: string): Option<Store>
  {
    var run := ProcessFile(ps, path, ReadTags(file, CommentKey(path), genreKey));
    if run.write.Some? then UpdateGenre(file, run.write.value) else file
  }

  /**
   * As written, a second run over a file that is not FLAC repeats the
   * first exactly: the same providers are asked again and the same genre
   * is written again, on every run.
   */
  lemma OtherRerunRepeats(ps: seq<Provider>, path: string, file: Option<Store>)
    requires !IsFlac(path)
    ensures ProcessFile(ps, path, Extract(path, Written(ps, path, file, GenreKey(path)))) ==
            ProcessFile(ps, path, Extract(path, file))
  {
    var run := ProcessFile(ps, path, Extract(path, file));
    if run.write.Some? {
      OtherWriteUnseen(path, file, run.write.value);
    }
  }

  /** A single provider that always answers "Rock". */
  const RockOnly := [Provider("rock", (artist: string, track: string) => Returned(Some("Rock")))]

  /** An MP3 file with an artist and a title and no genre. */
  const UntaggedMp3: Option<Store> := Some(map["artist" := ["A"], "title" := ["T"]])

  lemma UntaggedMp3Read()
    ensures Extract("song.mp3", UntaggedMp3) == Tags(Some("A"), Some("T"), None, None)
    ensures !IsFlac("song.mp3")
  {
    assert Lower("song.mp3") == "song.mp3";
    var s := UntaggedMp3.value;
    assert s.Keys == {"artist", "title"};
    assert "TCON" != "artist" && "TCON" != "title";
    assert "COMM::eng" != "artist" && "COMM::eng" != "title";
    assert First(s, "TCON") == Value(None);
    assert First(s, "COMM::eng") == Value(None);
  }

  /** When the first provider answers, it is the only one asked, and its answer is written. */
  lemma FirstProviderAnswers(ps: seq<Provider>, path: string, tags: Tags)
    requires Truthy(tags.artist) && Truthy(tags.title) && !Truthy(tags.genre) && ps != []
    requires Yield(Call(ps[0], tags.artist.value, tags.title.value)).Some?
    ensures ProcessFile(ps, path, tags).write == Yield(Call(ps[0], tags.artist.value, tags.title.value))
    ensures ProcessFile(ps, path, tags).invoked == [ps[0].name]
  {
    ResolveFirst(ps, tags.artist.value, tags.title.value, 0);
    ResolvedWritten(ps, path, tags);
    assert Names(ps[..1])[0] == ps[0].name;
  }

  lemma RockOnlyRun(path: string)
    ensures ProcessFile(RockOnly, path, Tags(Some("A"), Some("T"), None, None)).write == Some("Rock")
    ensures ProcessFile(RockOnly, path, Tags(Some("A"), Some("T"), None, None)).invoked == ["rock"]
  {
    assert Yield(Call(RockOnly[0], "A", "T")) == Some("Rock");
    FirstProviderAnswers(RockOnly, path, Tags(Some("A"), Some("T"), None, None));
  }

  /** An MP3 that every run looks up and rewrites: the second run asks the provider and writes again. */
  lemma Mp3RerunExample()
    ensures var again := ProcessFile(RockOnly, "song.mp3",
                                     Extract("song.mp3", Written(RockOnly, "song.mp3", UntaggedMp3, GenreKey("song.mp3"))));
            again.invoked == ["rock"] && again.write == Some("Rock")
  {
    UntaggedMp3Read();
    RockOnlyRun("song.mp3");
    OtherRerunRepeats(RockOnly, "song.mp3", UntaggedMp3);
  }

  /** A FLAC file whose genre was written is quiet on the next run, as written. */
  lemma FlacRerunQuiet(ps: seq<Provider>, path: string, file: Option<Store>)
    requires IsFlac(path) && ProcessFile(ps, path, Extract(path, file)).write.Some?
    ensures var first := ProcessFile(ps, path, Extract(path, file));
            ProcessFile(ps, path, Extract(path, Written(ps, path, file, GenreKey(path)))) ==
            FileRun(first.outcome, [], None)
  {
    var tags := Extract(path, file);
    var w := ProcessFile(ps, path, tags).write.value;
    assert Written(ps, path, file, GenreKey(path)) == UpdateGenre(file, w);
    FlacReadsBack(path, file, w);
    RerunIsQuiet(ps, ps, path, tags);
  }

  lemma IntendedWritten(ps: seq<Provider>, path: string, file: Option<Store>)
    requires ProcessFile(ps, path, ExtractIntended(path, file)).write.Some?
    ensures Written(ps, path, file, "genre") ==
            UpdateGenre(file, ProcessFile(ps, path, ExtractIntended(path, file)).write.value)
  {
  }

  /** Only a file with an artist and a title is ever written to. */
  lemma WriteNeedsTags(ps: seq<Provider>, path: string, tags: Tags)
    requires ProcessFile(ps, path, tags).write.Some?
    ensures tags != NoTags
  {
  }

  lemma IntendedRereadQuiet(ps: seq<Provider>, path: string, file: Option<Store>, w: string)
    requires ExtractIntended(path, file) != NoTags
    requires ProcessFile(ps, path, ExtractIntended(path, file)).write == Some(w)
    ensures ProcessFile(ps, path, ExtractIntended(path, UpdateGenre(file, w))) ==
            FileRun(ProcessFile(ps, path, ExtractIntended(path, file)).outcome, [], None)
  {
    IntendedReadsBack(path, file, w);
    RerunIsQuiet(ps, ps, path, ExtractIntended(path, file));
  }

  /** Reading the genre where it is written, every file is quiet on the next run. */
  lemma IntendedRerunQuiet(ps: seq<Provider>, path: string, file: Option<Store>)
    requires ProcessFile(ps, path, ExtractIntended(path, file)).write.Some?
    ensures var first := ProcessFile(ps, path, ExtractIntended(path, file));
            ProcessFile(ps, path, ExtractIntended(path, Written(ps, path, file, "genre"))) ==
            FileRun(first.outcome, [], None)
  {
    WriteNeedsTags(ps, path, ExtractIntended(path, file));
    IntendedWritten(ps, path, file);
    IntendedRereadQuiet(ps, path, file, ProcessFile(ps, path, ExtractIntended(path, file)).write.value);
  }
}
