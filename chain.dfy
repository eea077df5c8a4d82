/**
 * Building the provider chain at start-up: the four provider families in
 * a fixed order, each kept only when not disabled on the command line and
 * when its credentials and optional packages are there. Wikipedia gives two
 * entries, track-based then artist-based.
 */
module Chain {
  import opened Seqs
  import opened Resolver

  datatype Source = Spotify | LastFm | Discogs | WikipediaTrack | WikipediaArtist

  /** The name each provider is logged under. */
  function SourceName(s: Source): string
  {
    match s
    case Spotify => "Spotify"
    case LastFm => "Last.fm"
    case Discogs => "Discogs"
    case WikipediaTrack => "Wikipedia (Track)"
    case WikipediaArtist => "Wikipedia (Artist)"
  }

  /** Position in the priority order. */
  function Rank(s: Source): nat
  {
    match s
    case Spotify => 0
    case LastFm => 1
    case Discogs => 2
    case WikipediaTrack => 3
    case WikipediaArtist => 4
  }

  /** The command-line switches that disable a provider family. */
  datatype Switches = Switches(noSpotify: bool, noLastfm: bool, noDiscogs: bool, noWikipedia: bool)

  /**
   * What start-up finds: whether the Spotify client could be built from
   * the secrets module, whether the optional packages import, and the
   * credential strings (empty when the secrets module does not define them).
   */
  datatype Environment = Environment(
    spotifyClientBuilt: bool,
    pylastInstalled: bool, lastfmApiKey: string, lastfmApiSecret: string,
    discogsInstalled: bool, discogsToken: string,
    wikipediaInstalled: bool)

  predicate Enabled(s: Source, sw: Switches, env: Environment)
  {
    match s
    case Spotify => !sw.noSpotify && env.spotifyClientBuilt
    case LastFm => !sw.noLastfm && env.pylastInstalled && env.lastfmApiKey != "" && env.lastfmApiSecret != ""
    case Discogs => !sw.noDiscogs && env.discogsInstalled && env.discogsToken != ""
    case WikipediaTrack => !sw.noWikipedia && env.wikipediaInstalled
    case WikipediaArtist => !sw.noWikipedia && env.wikipediaInstalled
  }

  function Opt(b: bool, s: seq<Source>): seq<Source>
  {
    if b then s else []
  }

  /** The chain the tagger builds for these switches and this environment, family by family. */
  function ChainFor(sw: Switches, env: Environment): seq<Source>
  {
    Opt(Enabled(Spotify, sw, env), [Spotify]) +
    Opt(Enabled(LastFm, sw, env), [LastFm]) +
    Opt(Enabled(Discogs, sw, env), [Discogs]) +
    Opt(Enabled(WikipediaTrack, sw, env), [WikipediaTrack, WikipediaArtist])
  }

  predicate StrictlyRanked(r: seq<Source>)
  {
    forall i, j :: 0 <= i < j < |r| ==> Rank(r[i]) < Rank(r[j])
  }

  /**
   * The chain holds exactly the enabled providers, each once, in the fixed
   * priority order Spotify, Last.fm, Discogs, Wikipedia (Track), Wikipedia
   * (Artist); the two Wikipedia entries come together, track first.
   */
  lemma ChainShape(sw: Switches, env: Environment)
    ensures var c := ChainFor(sw, env);
            (forall s :: s in c <==> Enabled(s, sw, env)) &&
            StrictlyRanked(c) &&
            (WikipediaTrack in c <==> WikipediaArtist in c)
  {
    ChainMembers(sw, env);
    ChainRanked(sw, env);
  }

  lemma ChainMembers(sw: Switches, env: Environment)
    ensures forall s :: s in ChainFor(sw, env) <==> Enabled(s, sw, env)
  {
  }

  lemma ChainRanked(sw: Switches, env: Environment)
    ensures StrictlyRanked(ChainFor(sw, env))
  {
    BlocksRanked(Enabled(Spotify, sw, env), Enabled(LastFm, sw, env),
                 Enabled(Discogs, sw, env), Enabled(WikipediaTrack, sw, env));
  }

  /** Whichever families are present, the four blocks in order are ranked. */
  lemma BlocksRanked(p: bool, q: bool, r: bool, w: bool)
    ensures StrictlyRanked(Opt(p, [Spotify]) + Opt(q, [LastFm]) + Opt(r, [Discogs]) +
                           Opt(w, [WikipediaTrack, WikipediaArtist]))
  {
    var a, b, c, d := Opt(p, [Spotify]), Opt(q, [LastFm]), Opt(r, [Discogs]),
                      Opt(w, [WikipediaTrack, WikipediaArtist]);
    OptBlock(p, [Spotify], 0, 1);
    OptBlock(q, [LastFm], 1, 2);
    OptBlock(r, [Discogs], 2, 3);
    OptBlock(w, [WikipediaTrack, WikipediaArtist], 3, 5);
    RankedAppend(a, b, 0, 1, 2);
    RankedAppend(a + b, c, 0, 2, 3);
    RankedAppend(a + b + c, d, 0, 3, 5);
  }

  /** Every entry ranks in [lo, hi). */
  predicate RankedWithin(x: seq<Source>, lo: nat, hi: nat)
  {
    forall s :: s in x ==> lo <= Rank(s) < hi
  }

  /** Leaving a block out keeps it ranked and within its bounds. */
  lemma OptBlock(b: bool, x: seq<Source>, lo: nat, hi: nat)
    requires StrictlyRanked(x) && RankedWithin(x, lo, hi)
    ensures StrictlyRanked(Opt(b, x)) && RankedWithin(Opt(b, x), lo, hi)
  {
  }

  /** A ranked block below `m` followed by a ranked block from `m` on makes a ranked block. */
  lemma RankedAppend(x: seq<Source>, y: seq<Source>, lo: nat, m: nat, hi: nat)
    requires StrictlyRanked(x) && StrictlyRanked(y)
    requires lo <= m <= hi && RankedWithin(x, lo, m) && RankedWithin(y, m, hi)
    ensures StrictlyRanked(x + y) && RankedWithin(x + y, lo, hi)
  {
    var z := x + y;
    forall i, j | 0 <= i < j < |z| ensures Rank(z[i]) < Rank(z[j]) {
      if i < |x| && j >= |x| {
        assert z[i] in x && z[j] in y;
      } else if i >= |x| {
        assert z[i] == y[i - |x|] && z[j] == y[j - |x|];
      }
    }
    assert forall s :: s in z ==> s in x || s in y;
  }

  /** Every family disabled or unavailable is the one case in which the chain is empty. */
  lemma ChainEmptyIff(sw: Switches, env: Environment)
    ensures ChainFor(sw, env) == [] <==> forall s :: !Enabled(s, sw, env)
  {
    ChainShape(sw, env);
    var c := ChainFor(sw, env);
    if c != [] {
      assert c[0] in c;
    }
  }

  /**
   * The start-up code: each family is tried in turn and appended when it
   * can be used.
   */
  method BuildChain(sw: Switches, env: Environment) returns (chain: seq<Source>)
    ensures chain == ChainFor(sw, env)
    ensures forall s :: s in chain <==> Enabled(s, sw, env)
    ensures StrictlyRanked(chain)
  {
    chain := [];
    if !sw.noSpotify {
      if env.spotifyClientBuilt {
        chain := chain + [Spotify];
      }
    }
    ghost var a := chain;
    assert a == Opt(Enabled(Spotify, sw, env), [Spotify]);
    if !sw.noLastfm {
      if env.pylastInstalled {
        if env.lastfmApiKey != "" && env.lastfmApiSecret != "" {
          chain := chain + [LastFm];
        }
      }
    }
    ghost var b := chain;
    assert b == a + Opt(Enabled(LastFm, sw, env), [LastFm]);
    if !sw.noDiscogs {
      if env.discogsInstalled {
        if env.discogsToken != "" {
          chain := chain + [Discogs];
        }
      }
    }
    ghost var c := chain;
    assert c == b + Opt(Enabled(Discogs, sw, env), [Discogs]);
    if !sw.noWikipedia {
      if env.wikipediaInstalled {
        chain := chain + [WikipediaTrack];
        chain := chain + [WikipediaArtist];
        assert chain == c + [WikipediaTrack, WikipediaArtist];
      }
    }
    assert chain == c + Opt(Enabled(WikipediaTrack, sw, env), [WikipediaTrack, WikipediaArtist]);
    ChainShape(sw, env);
  }

  /** The providers the resolver walks: each source's name and its lookup. */
  function Providers(chain: seq<Source>, lookups: Source -> (string, string) -> CallOutcome): (ps: seq<Provider>)
    ensures |ps| == |chain|
    ensures forall k :: 0 <= k < |chain| ==> ps[k] == Provider(SourceName(chain[k]), lookups(chain[k]))
  {
    seq(|chain|, k requires 0 <= k < |chain| => Provider(SourceName(chain[k]), lookups(chain[k])))
  }

  /** Different sources are logged under different names. */
  lemma SourceNamesDiffer(a: Source, b: Source)
    requires a != b
    ensures SourceName(a) != SourceName(b)
  {
    assert SourceName(a)[0] != SourceName(b)[0] || SourceName(a)[11] != SourceName(b)[11];
  }

  /**
   * The providers the resolver walks are named after exactly the enabled
   * sources, each name once.
   */
  lemma ProviderNames(sw: Switches, env: Environment, lookups: Source -> (string, string) -> CallOutcome)
    ensures var names := Names(Providers(ChainFor(sw, env), lookups));
            (forall s :: SourceName(s) in names <==> Enabled(s, sw, env)) && Distinct(names)
  {
    var c := ChainFor(sw, env);
    var names := Names(Providers(c, lookups));
    ChainShape(sw, env);
    forall s ensures SourceName(s) in names <==> Enabled(s, sw, env) {
      if SourceName(s) in names {
        var k :| 0 <= k < |names| && names[k] == SourceName(s);
        if c[k] != s {
          SourceNamesDiffer(c[k], s);
        }
        assert c[k] in c;
      }
      if Enabled(s, sw, env) {
        var k :| 0 <= k < |c| && c[k] == s;
        assert names[k] == SourceName(s);
      }
    }
    forall i, j | 0 <= i < j < |names| ensures names[i] != names[j] {
      assert Rank(c[i]) < Rank(c[j]);
      SourceNamesDiffer(c[i], c[j]);
    }
  }
}
