/** `SpotifyUri.isType` and `SpotifyUri.canBeType`: non-throwing probes of
    whether a string is, or can become, a URI of a given class. */
module Probes {
  import opened Wrappers
  import opened Grammar
  import opened Parser
  import opened Resolver

  /** `isType<K>(s)`: the polymorphic constructor yields class `k`. */
  predicate IsType(k: Kind, s: string)
    ensures IsType(k, s) ==> Prefix(k) <= s && ParseAs(k, s) == Resolve(s)
  {
    Resolve(s).Some? && Resolve(s).value.kind == k
  }

  /** `canBeType<K>(s)`: `isType`, or `s` is a bare id. */
  predicate CanBeType(k: Kind, s: string)
    ensures CanBeType(k, s) ==> ParseAs(k, s).Some?
  {
    IsType(k, s) || IsBareId(s)
  }

  /** `isType` is strict: it holds exactly for inputs carrying the class's own
      prefix that its constructor accepts. */
  lemma IsTypeCharacterized(k: Kind, s: string)
    ensures IsType(k, s) <==> Prefix(k) <= s && ParseAs(k, s).Some?
  {
    if Prefix(k) <= s && ParseAs(k, s).Some? {
      ResolveCharacterized(s, ParseAs(k, s).value);
    }
    if IsType(k, s) {
      ResolveCharacterized(s, Resolve(s).value);
    }
  }

  /** `canBeType` is "the class's constructor would succeed", except that a
      playlist is never read from a user URI by this probe. */
  lemma CanBeTypeCharacterized(k: Kind, s: string)
    ensures CanBeType(k, s) <==> ParseAs(k, s).Some? && !(k == Playlist && Prefix(User) <= s)
  {
    IsTypeCharacterized(k, s);
    if Prefix(User) <= s {
      PrefixedIsNotBare(User, s);
      if k == Playlist {
        PrefixesExclusive(User, Playlist, s);
      }
    }
  }

  /** The combined user-and-playlist string can be constructed as a playlist,
      yet neither probe reports a playlist for it. */
  lemma ProbesOnUserPlaylist(user: string, pl: string)
    requires ':' !in user
    requires pl != []
    ensures ParseAs(Playlist, UserPlaylistText(user, pl)).Some?
    ensures !IsType(Playlist, UserPlaylistText(user, pl))
    ensures !CanBeType(Playlist, UserPlaylistText(user, pl))
  {
    UserPlaylistPath(user, pl);
    CanBeTypeCharacterized(Playlist, UserPlaylistText(user, pl));
  }

  /** On a bare id the probes split: not the type, but can become it. */
  lemma ProbesOnBareId(k: Kind, id: string)
    requires IsBareId(id)
    ensures !IsType(k, id)
    ensures CanBeType(k, id)
  {
    ResolveRefusesBareId(id);
  }

  /** On any well-formed `uri` both probes hold for its class and `isType`
      fails for every other class. */
  lemma ProbesOnCanonical(u: Uri, k: Kind)
    requires Valid(u)
    ensures IsType(u.kind, Canonical(u)) && CanBeType(u.kind, Canonical(u))
    ensures IsType(k, Canonical(u)) <==> k == u.kind
  {
    ResolveRoundTrip(u);
  }
}
