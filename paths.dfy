/**
 * File-name tests and POSIX path arithmetic used by the batch driver:
 * the supported-extension filter, `is_flac`, `os.path.basename`,
 * `os.path.dirname` and `os.path.join` of two parts.
 */
module Paths {
  import opened Text

  /** The extensions the tagger processes, compared in lower case. */
  const SupportedExtensions: seq<string> := [".mp3", ".flac"]

  /** `s.endswith(tuple)`: true when s ends with any of the suffixes. */
  predicate EndsWithAny(s: string, suffixes: seq<string>)
  {
    suffixes != [] && (EndsWith(s, suffixes[0]) || EndsWithAny(s, suffixes[1..]))
  }

  /** `name.lower().endswith(SUPPORTED_EXTENSIONS)` */
  predicate IsSupported(name: string)
  {
    EndsWithAny(Lower(name), SupportedExtensions)
  }

  /** `is_flac`: the lower-cased path ends in `.flac`. */
  predicate IsFlac(path: string)
  {
    EndsWith(Lower(path), ".flac")
  }

  /** The filter accepts exactly the names ending in .mp3 or .flac, in any letter case. */
  lemma SupportedIff(name: string)
    ensures IsSupported(name) <==> EndsWith(Lower(name), ".mp3") || EndsWith(Lower(name), ".flac")
  {
    var s := Lower(name);
    assert SupportedExtensions[0] == ".mp3" && SupportedExtensions[1..] == [".flac"];
    assert [".flac"][0] == ".flac" && [".flac"][1..] == [];
    assert EndsWithAny(s, SupportedExtensions) == (EndsWith(s, ".mp3") || EndsWithAny(s, [".flac"]));
    assert EndsWithAny(s, [".flac"]) == (EndsWith(s, ".flac") || EndsWithAny(s, []));
  }

  /** A FLAC file always passes the extension filter. */
  lemma FlacIsSupported(path: string)
    requires IsFlac(path)
    ensures IsSupported(path)
  {
    SupportedIff(path);
  }

  /** Letter case does not matter to the filter. */
  lemma SupportedIgnoresCase(name: string)
    ensures IsSupported(Lower(name)) == IsSupported(name)
    ensures IsFlac(Lower(name)) == IsFlac(name)
  {
    LowerIdempotent(name);
  }

  /** Upper-case extensions are accepted. */
  lemma UpperCaseExamples()
    ensures IsSupported("Song.MP3") && IsSupported("a.Flac")
  {
    SupportedIff("Song.MP3");
    SupportedIff("a.Flac");
    assert Lower("Song.MP3") == "song.mp3";
    assert Lower("a.Flac") == "a.flac";
  }

  /** Other audio formats, and a bare extension with no dot before it, are not. */
  lemma UnsupportedExamples()
    ensures !IsSupported("track.wav") && !IsSupported("mp3") && !IsFlac("x.mp3")
  {
    SupportedIff("track.wav");
    SupportedIff("mp3");
    assert Lower("track.wav") == "track.wav";
    assert Lower("x.mp3")[1..] == ".mp3";
  }

  // ---------------------------------------------------------------------
  // posixpath
  // ---------------------------------------------------------------------

  predicate NoSlash(s: string)
  {
    forall k :: 0 <= k < |s| ==> s[k] != '/'
  }

  /** `p.rfind('/') + 1`: where the last component starts. */
  function LastSlash(p: string): (i: nat)
    ensures i <= |p|
    ensures NoSlash(p[i..])
    ensures i > 0 ==> p[i - 1] == '/'
  {
    if p == [] then 0
    else if p[|p| - 1] == '/' then |p|
    else LastSlash(p[..|p| - 1])
  }

  /** The split point is the only one with these properties. */
  lemma LastSlashUnique(p: string, i: nat)
    requires i <= |p| && NoSlash(p[i..]) && (i > 0 ==> p[i - 1] == '/')
    ensures LastSlash(p) == i
  {
  }

  /** `os.path.basename`: everything after the last slash. */
  function Basename(p: string): (r: string)
    ensures NoSlash(r)
    ensures EndsWith(p, r)
    ensures |r| == |p| || p[|p| - |r| - 1] == '/'
  {
    p[LastSlash(p)..]
  }

  /** `s.rstrip('/')` */
  function RStripSlash(s: string): (r: string)
    ensures |r| <= |s| && r == s[..|r|]
    ensures AllSlash(s[|r|..])
    ensures r == [] || r[|r| - 1] != '/'
  {
    if s != [] && s[|s| - 1] == '/' then
      var r := RStripSlash(s[..|s| - 1]);
      assert s[|r|..] == s[..|s| - 1][|r|..] + ['/'];
      r
    else s
  }

  predicate AllSlash(s: string)
  {
    forall k :: 0 <= k < |s| ==> s[k] == '/'
  }

  /**
   * `os.path.dirname`: everything before the last component. Its trailing
   * slashes are dropped, unless nothing but slashes is left.
   */
  function Dirname(p: string): (r: string)
    ensures |r| <= LastSlash(p)
    ensures r == p[..|r|]
    ensures AllSlash(p[..LastSlash(p)]) ==> r == p[..LastSlash(p)]
    ensures !AllSlash(p[..LastSlash(p)]) ==>
              r != [] && r[|r| - 1] != '/' && AllSlash(p[|r|..LastSlash(p)])
  {
    var head := p[..LastSlash(p)];
    if head != [] && !AllSlash(head) then
      var r := RStripSlash(head);
      assert r != [];
      assert p[|r|..LastSlash(p)] == head[|r|..];
      r
    else head
  }

  /** `os.path.join(a, b)` */
  function PathJoin(a: string, b: string): string
  {
    if b != [] && b[0] == '/' then b
    else if a == [] || a[|a| - 1] == '/' then a + b
    else a + "/" + b
  }

  /** A file name joined onto a directory is that path's basename again. */
  lemma BasenameJoin(dir: string, name: string)
    requires NoSlash(name)
    ensures Basename(PathJoin(dir, name)) == name
  {
    var p := PathJoin(dir, name);
    var prefix := if dir == [] || dir[|dir| - 1] == '/' then dir else dir + "/";
    assert p == prefix + name;
    assert p[|prefix|..] == name;
    LastSlashUnique(p, |prefix|);
  }

  /** Two names joined onto the same directory share one prefix. */
  lemma JoinPrefix(dir: string, name: string)
    requires NoSlash(name)
    ensures PathJoin(dir, name) == JoinHead(dir) + name
  {
    if name != [] {
      assert name[0] != '/';
    }
  }

  /** The directory as `os.path.join` leaves it in front of a relative name. */
  function JoinHead(dir: string): string
  {
    if dir == [] || dir[|dir| - 1] == '/' then dir else dir + "/"
  }

  /** Different file names joined onto one directory give different paths. */
  lemma NamesDiffer(dir: string, a: string, b: string)
    requires NoSlash(a) && NoSlash(b) && a != b
    ensures PathJoin(dir, a) != PathJoin(dir, b)
  {
    BasenameJoin(dir, a);
    BasenameJoin(dir, b);
  }

  /** File names joined onto directories that join differently give different paths. */
  lemma HeadsDiffer(d1: string, d2: string, a: string, b: string)
    requires NoSlash(a) && NoSlash(b) && JoinHead(d1) != JoinHead(d2)
    ensures PathJoin(d1, a) != PathJoin(d2, b)
  {
    JoinPrefix(d1, a);
    JoinPrefix(d2, b);
    BasenameJoin(d1, a);
    BasenameJoin(d2, b);
    assert (JoinHead(d1) + a)[..|JoinHead(d1)|] == JoinHead(d1);
    assert (JoinHead(d2) + b)[..|JoinHead(d2)|] == JoinHead(d2);
  }

  lemma BasenameExamples()
    ensures Basename("music/a/song.mp3") == "song.mp3"
    ensures Basename("song.mp3") == "song.mp3"
    ensures PathJoin("music", "song.mp3") == "music/song.mp3"
  {
    LastSlashUnique("music/a/song.mp3", 8);
    LastSlashUnique("song.mp3", 0);
  }

  lemma DirnameExamples()
    ensures Dirname("music/a/song.mp3") == "music/a"
    ensures Dirname("song.mp3") == ""
  {
    var p := "music/a/song.mp3";
    LastSlashUnique(p, 8);
    LastSlashUnique("song.mp3", 0);
    var r := Dirname(p);
    assert p[..8] == "music/a/" && p[0] == 'm';
    assert |r| == 7;
    assert p[..7] == "music/a";
  }

  /** Doubled slashes before the file name are dropped. */
  lemma DirnameDoubleSlash()
    ensures Dirname("music//song.mp3") == "music"
  {
    var p := "music//song.mp3";
    LastSlashUnique(p, 7);
    var r := Dirname(p);
    assert p[..7] == "music//" && p[0] == 'm';
    assert p[4] == 'c' && p[5] == '/' && p[6] == '/';
    assert r == p[..|r|] && |r| <= 7;
    assert |r| == 5;
    assert p[..5] == "music";
  }

  /** A file directly under the root keeps the root as its directory. */
  lemma DirnameRoot()
    ensures Dirname("/song.mp3") == "/"
  {
    LastSlashUnique("/song.mp3", 1);
    assert "/song.mp3"[..1] == "/";
  }


}
