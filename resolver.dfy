/**
 * The fallback resolver: try each configured provider in priority order and
 * keep the first truthy answer. A provider is a name and a lookup whose
 * outcome for an (artist, track) pair is given, since the network behind it
 * is not modelled.
 */
module Resolver {
  import opened Wrappers
  import opened Text

  /** What one provider call does: return a value (possibly None) or raise. */
  datatype CallOutcome = Returned(value: Option<string>) | Raised

  datatype Provider = Provider(name: string, lookup: (string, string) -> CallOutcome)

  /** The result the resolver takes from one call; anything not truthy is no result. */
  function Yield(o: CallOutcome): (r: Option<string>)
    ensures r.Some? <==> o.Returned? && Truthy(o.value)
    ensures r.Some? ==> r == o.value
  {
    if o.Returned? && Truthy(o.value) then o.value else None
  }

  function Call(p: Provider, artist: string, track: string): CallOutcome
  {
    p.lookup(artist, track)
  }

  function Names(ps: seq<Provider>): (r: seq<string>)
    ensures |r| == |ps|
    ensures forall k :: 0 <= k < |ps| ==> r[k] == ps[k].name
  {
    seq(|ps|, k requires 0 <= k < |ps| => ps[k].name)
  }

  /** The genre `get_genre` returns, by recursion over the provider list. */
  function Resolve(ps: seq<Provider>, artist: string, track: string): (r: Option<string>)
    ensures r.None? || Truthy(r)
  {
    if ps == [] then None
    else
      var y := Yield(Call(ps[0], artist, track));
      if y.Some? then y else Resolve(ps[1..], artist, track)
  }

  /** The names of the providers `get_genre` calls, in call order. */
  function Invoked(ps: seq<Provider>, artist: string, track: string): (r: seq<string>)
    ensures |r| <= |ps|
  {
    if ps == [] then []
    else if Yield(Call(ps[0], artist, track)).Some? then [ps[0].name]
    else [ps[0].name] + Invoked(ps[1..], artist, track)
  }

  /** The first provider in the list is always asked. */
  lemma FirstAlwaysAsked(ps: seq<Provider>, artist: string, track: string)
    requires ps != []
    ensures var r := Invoked(ps, artist, track); r != [] && r[0] == ps[0].name
  {
  }

  /** The index of the first provider with a truthy answer, or |ps| if there is none. */
  function FirstHit(ps: seq<Provider>, artist: string, track: string): (k: nat)
    ensures k <= |ps|
    ensures forall j :: 0 <= j < k ==> Yield(Call(ps[j], artist, track)).None?
    ensures k < |ps| ==> Yield(Call(ps[k], artist, track)).Some?
  {
    if ps == [] then 0
    else if Yield(Call(ps[0], artist, track)).Some? then 0
    else 1 + FirstHit(ps[1..], artist, track)
  }

  /**
   * `get_genre` returns the answer of the first provider, in list order,
   * whose answer is truthy, and calls exactly the providers up to and
   * including that one: none after it.
   */
  lemma {:induction false} ResolveFirst(ps: seq<Provider>, artist: string, track: string, i: nat)
    requires i < |ps|
    requires Yield(Call(ps[i], artist, track)).Some?
    requires forall j :: 0 <= j < i ==> Yield(Call(ps[j], artist, track)).None?
    ensures Resolve(ps, artist, track) == ps[i].lookup(artist, track).value
    ensures Invoked(ps, artist, track) == Names(ps[..i + 1])
  {
    if i > 0 {
      assert Yield(Call(ps[0], artist, track)).None?;
      assert ps[1..][i - 1] == ps[i];
      ResolveFirst(ps[1..], artist, track, i - 1);
      assert Names(ps[..i + 1]) == [ps[0].name] + Names(ps[1..][..i]);
    }
  }

  /**
   * `get_genre` returns None exactly when every provider raised, returned
   * None or returned the empty string; then every provider was called.
   */
  lemma {:induction false} ResolveExhausted(ps: seq<Provider>, artist: string, track: string)
    ensures Resolve(ps, artist, track).None? <==>
            forall j :: 0 <= j < |ps| ==> Yield(Call(ps[j], artist, track)).None?
    ensures Resolve(ps, artist, track).None? ==> Invoked(ps, artist, track) == Names(ps)
  {
    if ps != [] {
      ResolveExhausted(ps[1..], artist, track);
      assert forall j :: 1 <= j < |ps| ==> ps[j] == ps[1..][j - 1];
      assert Names(ps) == [ps[0].name] + Names(ps[1..]);
    }
  }

  /**
   * Once some provider answers, no provider after it is called: the calls
   * are a prefix of the list that ends at or before that provider.
   */
  lemma NoCallAfterHit(ps: seq<Provider>, artist: string, track: string, i: nat)
    requires i < |ps| && Yield(Call(ps[i], artist, track)).Some?
    ensures Resolve(ps, artist, track).Some?
    ensures |Invoked(ps, artist, track)| <= i + 1
    ensures Invoked(ps, artist, track) == Names(ps[..|Invoked(ps, artist, track)|])
  {
    var k := FirstHit(ps, artist, track);
    assert k <= i;
    ResolveFirst(ps, artist, track, k);
  }

  /**
   * `get_genre`: a loop over the providers with an early return on the
   * first truthy answer; a raising provider is logged and skipped.
   * `called` records which providers were invoked.
   */
  method GetGenre(ps: seq<Provider>, artist: string, track: string)
    returns (result: Option<string>, called: seq<string>)
    ensures result == Resolve(ps, artist, track)
    ensures called == Invoked(ps, artist, track)
  {
    called := [];
    var i := 0;
    while i < |ps|
      invariant 0 <= i <= |ps|
      invariant Resolve(ps, artist, track) == Resolve(ps[i..], artist, track)
      invariant Invoked(ps, artist, track) == called + Invoked(ps[i..], artist, track)
    {
      var p := ps[i];
      called := called + [p.name];
      var outcome := p.lookup(artist, track);
      match outcome {
        case Raised =>
        case Returned(v) =>
          if Truthy(v) {
            result := v;
            return;
          }
      }
      assert ps[i..][1..] == ps[i + 1..];
      i := i + 1;
    }
    result := None;
  }
}
