/** The concrete constructors `SpotifyTrackUri`, `LocalTrackUri`, `UserUri`,
    `PlaylistUri`, `AlbumUri` and `ArtistUri`: each parses its input as one
    fixed kind, with bare-id fallback. */
module Parser {
  import opened Wrappers
  import opened Grammar

  /** Constructs the URI of kind `k` from `s`, or fails as a whole. */
  function ParseAs(k: Kind, s: string): (r: Option<Uri>)
    ensures r.Some? ==> r.value.kind == k && Valid(r.value)
    ensures r.Some? ==> IsBareId(s) || Prefix(k) <= s || (k == Playlist && Prefix(User) <= s)
  {
    if IsBareId(s) then
      Some(Uri(k, s))
    else if Prefix(k) <= s then
      var rest := s[|Prefix(k)|..];
      if k == User then
        match ParseUserPath(rest)
        case Some(p) => Some(Uri(User, p.user))
        case None => None
      else if ValidId(k, rest) then
        Some(Uri(k, rest))
      else
        None
    else if k == Playlist && Prefix(User) <= s then
      match ParseUserPath(s[|Prefix(User)|..])
      case Some(UserPath(_, Some(pl))) => Some(Uri(Playlist, pl))
      case _ => None
    else
      None
  }

  /** `<ns>:user:<user>:playlist:<pl>` — a user URI that embeds a playlist. */
  function UserPlaylistText(user: string, pl: string): string
  {
    Prefix(User) + UserPathText(UserPath(user, Some(pl)))
  }

  /** Reference definition: the spellings a caller may use for `u`: its bare
      id, its canonical `uri`, a user URI followed by a playlist clause, or
      (for a playlist) the combined user-and-playlist path. */
  ghost predicate Spells(s: string, u: Uri)
  {
    || (IsBareId(s) && s == u.id)
    || s == Canonical(u)
    || (u.kind == User && exists pl :: pl != [] && s == UserPlaylistText(u.id, pl))
    || (u.kind == Playlist && exists user :: ':' !in user && s == UserPlaylistText(user, u.id))
  }

  lemma UserPathSound(s: string)
    requires Prefix(User) <= s
    requires ParseUserPath(s[|Prefix(User)|..]).Some?
    ensures var p := ParseUserPath(s[|Prefix(User)|..]).value;
      s == Prefix(User) + UserPathText(p)
  {
    var rest := s[|Prefix(User)|..];
    assert s == Prefix(User) + rest;
  }

  /** Whatever a constructor returns is a spelling of it. */
  lemma ParseAsSound(k: Kind, s: string)
    requires ParseAs(k, s).Some?
    ensures Spells(s, ParseAs(k, s).value)
  {
    var u := ParseAs(k, s).value;
    if IsBareId(s) {
    } else if Prefix(k) <= s {
      if k == User {
        UserPathSound(s);
        var p := ParseUserPath(s[|Prefix(k)|..]).value;
        if p.playlist.Some? {
          assert s == UserPlaylistText(u.id, p.playlist.value);
        }
      } else {
        var rest := s[|Prefix(k)|..];
        assert s == Prefix(k) + rest;
      }
    } else {
      UserPathSound(s);
      var p := ParseUserPath(s[|Prefix(User)|..]).value;
      assert s == UserPlaylistText(p.user, u.id);
    }
  }

  /** Canonical round trip: constructing from `uri` gives the same value back,
      so `uri` equals the input and `id` is the text after the prefix. */
  lemma CanonicalRoundTrip(u: Uri)
    requires Valid(u)
    ensures ParseAs(u.kind, Canonical(u)) == Some(u)
  {
    var s := Canonical(u);
    PrefixedIsNotBare(u.kind, s);
    assert s[|Prefix(u.kind)|..] == u.id;
    if u.kind == User {
      ParseUserPathComplete(UserPath(u.id, None));
    }
  }

  /** A user URI with an embedded playlist: the user reading keeps only the
      user part, the playlist reading keeps only the playlist part. */
  lemma UserPlaylistPath(user: string, pl: string)
    requires ':' !in user
    requires pl != []
    ensures ParseAs(User, UserPlaylistText(user, pl)) == Some(Uri(User, user))
    ensures Canonical(Uri(User, user)) == Prefix(User) + user
    ensures ParseAs(Playlist, UserPlaylistText(user, pl)) == Some(Uri(Playlist, pl))
    ensures Canonical(Uri(Playlist, pl)) == Prefix(Playlist) + pl
  {
    var p := UserPath(user, Some(pl));
    var s := UserPlaylistText(user, pl);
    PrefixedIsNotBare(User, s);
    PrefixesExclusive(User, Playlist, s);
    assert s[|Prefix(User)|..] == UserPathText(p);
    ParseUserPathComplete(p);
  }

  /** Every spelling of a well-formed value constructs exactly that value. */
  lemma ParseAsComplete(s: string, u: Uri)
    requires Valid(u)
    requires Spells(s, u)
    ensures ParseAs(u.kind, s) == Some(u)
  {
    if IsBareId(s) && s == u.id {
    } else if s == Canonical(u) {
      CanonicalRoundTrip(u);
    } else if u.kind == User {
      var pl :| pl != [] && s == UserPlaylistText(u.id, pl);
      UserPlaylistPath(u.id, pl);
    } else {
      var user :| ':' !in user && s == UserPlaylistText(user, u.id);
      UserPlaylistPath(user, u.id);
    }
  }

  /** Construction, read as a relation: `ParseAs(k, s)` yields `u` exactly
      when `u` is a well-formed value of kind `k` and `s` spells it. */
  lemma ParseAsCharacterized(k: Kind, s: string, u: Uri)
    ensures ParseAs(k, s) == Some(u) <==> u.kind == k && Valid(u) && Spells(s, u)
  {
    if ParseAs(k, s) == Some(u) {
      ParseAsSound(k, s);
    }
    if u.kind == k && Valid(u) && Spells(s, u) {
      ParseAsComplete(s, u);
    }
  }

  /** Bare-id fallback: a colon-free id becomes `<ns>:<kind>:<id>` with the id unchanged. */
  lemma BareIdFallback(k: Kind, id: string)
    requires IsBareId(id)
    ensures ParseAs(k, id) == Some(Uri(k, id))
    ensures Canonical(Uri(k, id)) == Namespace + ":" + Token(k) + ":" + id
  {
  }

  /** Normalisation is idempotent: re-constructing from the produced `uri`
      yields the same value. */
  lemma NormalFormStable(k: Kind, s: string)
    requires ParseAs(k, s).Some?
    ensures ParseAs(k, Canonical(ParseAs(k, s).value)) == ParseAs(k, s)
  {
    CanonicalRoundTrip(ParseAs(k, s).value);
  }

  /** Rejection: a colon-bearing input without this kind's prefix (or, for a
      playlist, the user prefix) fails. */
  lemma UnprefixedColonRejected(k: Kind, s: string)
    requires ':' in s
    requires !(Prefix(k) <= s)
    requires !(k == Playlist && Prefix(User) <= s)
    ensures ParseAs(k, s) == None
  {
  }

  /** Rejection: an input carrying another kind's prefix fails; the one
      exception is the user prefix, which a playlist reads when it embeds a
      playlist clause. */
  lemma ForeignPrefixRejected(k: Kind, other: Kind, s: string)
    requires other != k
    requires Prefix(other) <= s
    requires !(k == Playlist && other == User)
    ensures ParseAs(k, s) == None
  {
    PrefixedIsNotBare(other, s);
    PrefixesExclusive(other, k, s);
    if k == Playlist {
      PrefixesExclusive(other, User, s);
    }
  }
}
