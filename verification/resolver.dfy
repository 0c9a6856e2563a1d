/** The polymorphic entry points: `SpotifyUri(...)`, which picks the concrete
    class from the input's prefix, and `PlayableUri(...)`, which picks between
    a remote and a local track. */
module Resolver {
  import opened Wrappers
  import opened Grammar
  import opened Parser

  /** The kind whose prefix the input carries, tried in declared order. */
  function PrefixKind(s: string): (r: Option<Kind>)
    ensures r.Some? ==> Prefix(r.value) <= s
    ensures r.None? ==> forall k: Kind :: !(Prefix(k) <= s)
  {
    if Prefix(Track) <= s then Some(Track)
    else if Prefix(LocalTrack) <= s then Some(LocalTrack)
    else if Prefix(User) <= s then Some(User)
    else if Prefix(Playlist) <= s then Some(Playlist)
    else if Prefix(Album) <= s then Some(Album)
    else if Prefix(Artist) <= s then Some(Artist)
    else None
  }

  /** The declared order never decides anything: at most one prefix fits. */
  lemma PrefixKindExact(k: Kind, s: string)
    ensures PrefixKind(s) == Some(k) <==> Prefix(k) <= s
  {
    if Prefix(k) <= s && PrefixKind(s) != Some(k) {
      PrefixesExclusive(k, PrefixKind(s).value, s);
    }
  }

  /** `SpotifyUri(s)`: a bare id carries no kind, so it is refused. */
  function Resolve(s: string): (r: Option<Uri>)
    ensures r.Some? ==> Valid(r.value)
  {
    match PrefixKind(s)
    case Some(k) => ParseAs(k, s)
    case None => None
  }

  /** `SpotifyUri(s)` yields `u` exactly when `s` carries `u`'s prefix and the
      constructor of `u`'s class yields `u` from it. */
  lemma ResolveCharacterized(s: string, u: Uri)
    ensures Resolve(s) == Some(u) <==> Prefix(u.kind) <= s && ParseAs(u.kind, s) == Some(u)
  {
    PrefixKindExact(u.kind, s);
  }

  /** `SpotifyUri` refuses every bare id that each concrete class accepts. */
  lemma ResolveRefusesBareId(s: string)
    requires IsBareId(s)
    ensures Resolve(s) == None
  {
    if PrefixKind(s).Some? {
      PrefixedIsNotBare(PrefixKind(s).value, s);
    }
  }

  /** Resolving the `uri` of any well-formed value gives that value back,
      with its concrete class. */
  lemma ResolveRoundTrip(u: Uri)
    requires Valid(u)
    ensures Resolve(Canonical(u)) == Some(u)
  {
    CanonicalRoundTrip(u);
    ResolveCharacterized(Canonical(u), u);
  }

  /** `PlayableUri(s)`: a local-track prefix makes a local track; anything
      else is read as a remote track, bare ids included. */
  function ResolvePlayable(s: string): (r: Option<Uri>)
    ensures r.Some? ==> Valid(r.value) && r.value.kind in {Track, LocalTrack}
  {
    if Prefix(LocalTrack) <= s then ParseAs(LocalTrack, s) else ParseAs(Track, s)
  }

  /** `PlayableUri(s)` yields `u` exactly when `u` is a track constructed from
      `s`, or a local track constructed from an `s` with the local prefix. */
  lemma ResolvePlayableCharacterized(s: string, u: Uri)
    ensures ResolvePlayable(s) == Some(u) <==>
      && ParseAs(u.kind, s) == Some(u)
      && (u.kind == Track || (u.kind == LocalTrack && Prefix(LocalTrack) <= s))
  {
    if Prefix(LocalTrack) <= s {
      PrefixedIsNotBare(LocalTrack, s);
      PrefixesExclusive(LocalTrack, Track, s);
    }
  }

  /** A non-playable prefix is refused by `PlayableUri`. */
  lemma ResolvePlayableRefusesOtherKinds(k: Kind, s: string)
    requires k !in {Track, LocalTrack}
    requires Prefix(k) <= s
    ensures ResolvePlayable(s) == None
  {
    PrefixesExclusive(k, LocalTrack, s);
    ForeignPrefixRejected(Track, k, s);
  }

  /** `PlayableUri` gives back every track and local track from its `uri`. */
  lemma ResolvePlayableRoundTrip(u: Uri)
    requires Valid(u)
    requires u.kind in {Track, LocalTrack}
    ensures ResolvePlayable(Canonical(u)) == Some(u)
  {
    CanonicalRoundTrip(u);
    ResolvePlayableCharacterized(Canonical(u), u);
  }
}
