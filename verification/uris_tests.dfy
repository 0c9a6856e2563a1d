/** Each assertion of the URI test suite, stated about the model. The test
    strings are first tied to the model's own spellings (the `...Spelled`
    facts); every test lemma then follows from the general lemmas. */
module UrisTests {
  import opened Wrappers
  import opened Grammar
  import opened Parser
  import opened Resolver
  import opened Serialization
  import opened Probes

  const TrackId: string := "1Z9UVqWuRJ7zToOiVnlXRO"
  const UserId: string := "7r7uq6qxa4ymx3wnjd9mm6i83"
  const PlaylistId: string := "66wcLiS5R50akaQ3onDyZd"
  const AlbumId: string := "0W0ag2P4h1Fmp7PnGJVvIJ"
  const ArtistId: string := "1XLjkBxFokuDTlHt0mQkRe"
  /** A local-track id: artist, album, track name and id joined by colons. */
  const LocalId: string := "artist:album:name:id"

  const TrackText: string := Namespace + ":track:" + TrackId
  const LocalText: string := Namespace + ":local:" + LocalId
  const LocalTrackText: string := Namespace + ":local:" + TrackId
  const UserText: string := Namespace + ":user:" + UserId
  const EmptyUserText: string := Namespace + ":user:"
  const UserPlaylistInput: string := Namespace + ":user:" + UserId + ":playlist:" + PlaylistId
  const PlaylistText: string := Namespace + ":playlist:" + PlaylistId
  const AlbumText: string := Namespace + ":album:" + AlbumId
  const ArtistText: string := Namespace + ":artist:" + ArtistId

  /** A colon-bearing input that carries no namespace at all. */
  const Invalid: string := "a:invalid"

  /** Every prefix is the namespace followed by `:<token>:`. */
  lemma PrefixSpelled(k: Kind)
    ensures Prefix(k) == Namespace + (":" + Token(k) + ":")
  {
  }

  lemma Regroup(a: string, b: string, c: string, d: string)
    ensures a + b + c + d == a + (b + c + d)
  {
  }

  lemma TrackIdBare()
    ensures IsBareId(TrackId)
  {
  }

  lemma UserIdBare()
    ensures IsBareId(UserId)
  {
  }

  lemma PlaylistIdBare()
    ensures IsBareId(PlaylistId)
  {
  }

  lemma AlbumIdBare()
    ensures IsBareId(AlbumId)
  {
  }

  lemma ArtistIdBare()
    ensures IsBareId(ArtistId)
  {
  }

  lemma TrackSpelled()
    ensures TrackText == Canonical(Uri(Track, TrackId))
  {
    PrefixSpelled(Track);
  }

  lemma LocalSpelled()
    ensures LocalText == Canonical(Uri(LocalTrack, LocalId))
    ensures LocalTrackText == Canonical(Uri(LocalTrack, TrackId))
  {
    PrefixSpelled(LocalTrack);
  }

  lemma UserSpelled()
    ensures UserText == Canonical(Uri(User, UserId))
    ensures EmptyUserText == Canonical(Uri(User, ""))
  {
    PrefixSpelled(User);
  }

  lemma UserPlaylistSpelled()
    ensures UserPlaylistInput == UserPlaylistText(UserId, PlaylistId)
  {
    PrefixSpelled(User);
    Regroup(Prefix(User), UserId, PlaylistClause, PlaylistId);
  }

  lemma PlaylistSpelled()
    ensures PlaylistText == Canonical(Uri(Playlist, PlaylistId))
  {
    PrefixSpelled(Playlist);
  }

  lemma AlbumSpelled()
    ensures AlbumText == Canonical(Uri(Album, AlbumId))
  {
    PrefixSpelled(Album);
  }

  lemma ArtistSpelled()
    ensures ArtistText == Canonical(Uri(Artist, ArtistId))
  {
    PrefixSpelled(Artist);
  }

  lemma InvalidRejectedByAll(k: Kind)
    ensures ParseAs(k, Invalid) == None
  {
    assert Invalid[1] == ':';
    assert Invalid[0] != Prefix(k)[0] && Invalid[0] != Prefix(User)[0];
  }

  /** The local-track id alone is colon-bearing and unprefixed. */
  lemma LocalIdUnprefixed()
    ensures ':' in LocalId && !(Prefix(LocalTrack) <= LocalId)
  {
    assert LocalId[6] == ':';
    assert |LocalId| < |Prefix(LocalTrack)|;
  }

  /** The remote-track id does not carry the local-track prefix. */
  lemma TrackIdNotLocal()
    ensures !(Prefix(LocalTrack) <= TrackId)
  {
    assert TrackId[0] != Prefix(LocalTrack)[0];
  }

  lemma TrackRejectsInvalidInput()
    ensures ParseAs(Track, Invalid) == None
    ensures ParseAs(Track, UserText) == None
  {
    InvalidRejectedByAll(Track);
    UserSpelled();
    ForeignPrefixRejected(Track, User, UserText);
  }

  lemma TrackAcceptsValidInput()
    ensures ParseAs(Track, TrackText) == Some(Uri(Track, TrackId))
    ensures Canonical(Uri(Track, TrackId)) == TrackText
    ensures ParseAs(Track, TrackId) == Some(Uri(Track, TrackId))
  {
    TrackSpelled();
    TrackIdBare();
    CanonicalRoundTrip(Uri(Track, TrackId));
    BareIdFallback(Track, TrackId);
  }

  lemma LocalTrackRejectsInvalidInput()
    ensures ParseAs(LocalTrack, Invalid) == None
    ensures ParseAs(LocalTrack, UserText) == None
    ensures ParseAs(LocalTrack, LocalId) == None
  {
    InvalidRejectedByAll(LocalTrack);
    UserSpelled();
    ForeignPrefixRejected(LocalTrack, User, UserText);
    LocalIdUnprefixed();
    UnprefixedColonRejected(LocalTrack, LocalId);
  }

  lemma LocalTrackAcceptsValidInput()
    ensures ParseAs(LocalTrack, LocalText) == Some(Uri(LocalTrack, LocalId))
    ensures Canonical(Uri(LocalTrack, LocalId)) == LocalText
  {
    LocalSpelled();
    CanonicalRoundTrip(Uri(LocalTrack, LocalId));
  }

  lemma PlayableRejectsInvalidInput()
    ensures ResolvePlayable(Invalid) == None
    ensures ResolvePlayable(UserText) == None
  {
    InvalidRejectedByAll(Track);
    UserSpelled();
    ResolvePlayableRefusesOtherKinds(User, UserText);
  }

  lemma PlayableRemoteTrackFromUri()
    ensures ResolvePlayable(TrackText) == Some(Uri(Track, TrackId))
    ensures Canonical(Uri(Track, TrackId)) == TrackText
  {
    TrackSpelled();
    ResolvePlayableRoundTrip(Uri(Track, TrackId));
  }

  lemma PlayableLocalTrackFromUri()
    ensures ResolvePlayable(LocalTrackText) == Some(Uri(LocalTrack, TrackId))
    ensures Canonical(Uri(LocalTrack, TrackId)) == LocalTrackText
  {
    LocalSpelled();
    ResolvePlayableRoundTrip(Uri(LocalTrack, TrackId));
  }

  lemma PlayableRemoteTrackFromId()
    ensures ResolvePlayable(TrackId) == Some(Uri(Track, TrackId))
    ensures Canonical(Uri(Track, TrackId)) == TrackText
  {
    TrackSpelled();
    TrackIdBare();
    TrackIdNotLocal();
    BareIdFallback(Track, TrackId);
  }

  lemma UserRejectsInvalidInput()
    ensures ParseAs(User, Invalid) == None
    ensures ParseAs(User, TrackText) == None
  {
    InvalidRejectedByAll(User);
    TrackSpelled();
    ForeignPrefixRejected(User, Track, TrackText);
  }

  lemma UserAcceptsUri()
    ensures ParseAs(User, UserText) == Some(Uri(User, UserId))
    ensures Canonical(Uri(User, UserId)) == UserText
  {
    UserSpelled();
    UserIdBare();
    CanonicalRoundTrip(Uri(User, UserId));
  }

  lemma SpotifyUriResolvesUser()
    ensures Resolve(UserText) == Some(Uri(User, UserId))
    ensures Canonical(Uri(User, UserId)) == UserText
  {
    UserSpelled();
    UserIdBare();
    ResolveRoundTrip(Uri(User, UserId));
  }

  lemma UserAcceptsId()
    ensures ParseAs(User, UserId) == Some(Uri(User, UserId))
    ensures Canonical(Uri(User, UserId)) == UserText
  {
    UserSpelled();
    UserIdBare();
    BareIdFallback(User, UserId);
  }

  lemma UserDropsPlaylistClause()
    ensures ParseAs(User, UserPlaylistInput) == Some(Uri(User, UserId))
    ensures Canonical(Uri(User, UserId)) == UserText
  {
    UserSpelled();
    UserIdBare();
    PlaylistIdBare();
    UserPlaylistSpelled();
    UserPlaylistPath(UserId, PlaylistId);
  }

  lemma UserAcceptsEmptyId()
    ensures ParseAs(User, EmptyUserText) == Some(Uri(User, ""))
    ensures Canonical(Uri(User, "")) == EmptyUserText
  {
    UserSpelled();
    CanonicalRoundTrip(Uri(User, ""));
  }

  lemma PlaylistRejectsInvalidInput()
    ensures ParseAs(Playlist, Invalid) == None
    ensures ParseAs(Playlist, TrackText) == None
  {
    InvalidRejectedByAll(Playlist);
    TrackSpelled();
    ForeignPrefixRejected(Playlist, Track, TrackText);
  }

  lemma PlaylistAcceptsUri()
    ensures ParseAs(Playlist, PlaylistText) == Some(Uri(Playlist, PlaylistId))
    ensures Canonical(Uri(Playlist, PlaylistId)) == PlaylistText
  {
    PlaylistSpelled();
    PlaylistIdBare();
    CanonicalRoundTrip(Uri(Playlist, PlaylistId));
  }

  lemma PlaylistAcceptsId()
    ensures ParseAs(Playlist, PlaylistId) == Some(Uri(Playlist, PlaylistId))
    ensures Canonical(Uri(Playlist, PlaylistId)) == PlaylistText
  {
    PlaylistSpelled();
    PlaylistIdBare();
    BareIdFallback(Playlist, PlaylistId);
  }

  lemma PlaylistFromUserPath()
    ensures ParseAs(Playlist, UserPlaylistInput) == Some(Uri(Playlist, PlaylistId))
    ensures Canonical(Uri(Playlist, PlaylistId)) == PlaylistText
  {
    PlaylistSpelled();
    UserIdBare();
    PlaylistIdBare();
    UserPlaylistSpelled();
    UserPlaylistPath(UserId, PlaylistId);
  }

  lemma AlbumRejectsInvalidInput()
    ensures ParseAs(Album, Invalid) == None
    ensures ParseAs(Album, UserText) == None
  {
    InvalidRejectedByAll(Album);
    UserSpelled();
    ForeignPrefixRejected(Album, User, UserText);
  }

  lemma AlbumAcceptsValidInput()
    ensures ParseAs(Album, AlbumText) == Some(Uri(Album, AlbumId))
    ensures Canonical(Uri(Album, AlbumId)) == AlbumText
    ensures ParseAs(Album, AlbumId) == Some(Uri(Album, AlbumId))
  {
    AlbumSpelled();
    AlbumIdBare();
    CanonicalRoundTrip(Uri(Album, AlbumId));
    BareIdFallback(Album, AlbumId);
  }

  lemma ArtistRejectsInvalidInput()
    ensures ParseAs(Artist, Invalid) == None
    ensures ParseAs(Artist, UserText) == None
  {
    InvalidRejectedByAll(Artist);
    UserSpelled();
    ForeignPrefixRejected(Artist, User, UserText);
  }

  lemma ArtistAcceptsValidInput()
    ensures ParseAs(Artist, ArtistText) == Some(Uri(Artist, ArtistId))
    ensures Canonical(Uri(Artist, ArtistId)) == ArtistText
    ensures ParseAs(Artist, ArtistId) == Some(Uri(Artist, ArtistId))
  {
    ArtistSpelled();
    ArtistIdBare();
    CanonicalRoundTrip(Uri(Artist, ArtistId));
    BareIdFallback(Artist, ArtistId);
  }

  lemma SerializerReadsUserUri()
    ensures Deserialize(Polymorphic, UserText) == Some(Uri(User, UserId))
    ensures Deserialize(Concrete(User), UserText) == Some(Uri(User, UserId))
    ensures Serialize(Uri(User, UserId)) == UserText
  {
    UserSpelled();
    UserIdBare();
    SerializeRoundTrip(Polymorphic, Uri(User, UserId));
    SerializeRoundTrip(Concrete(User), Uri(User, UserId));
  }

  lemma SerializerReadsUserId()
    ensures Deserialize(Polymorphic, UserId) == None
    ensures Deserialize(Concrete(User), UserId) == Some(Uri(User, UserId))
    ensures Serialize(Uri(User, UserId)) == UserText
  {
    UserSpelled();
    UserIdBare();
    BareIdOnlyConcrete(User, UserId);
  }

  lemma UserProbes()
    ensures IsType(User, UserText)
    ensures !IsType(User, UserId)
    ensures CanBeType(User, UserText)
    ensures CanBeType(User, UserId)
  {
    UserSpelled();
    UserIdBare();
    ProbesOnCanonical(Uri(User, UserId), User);
    ProbesOnBareId(User, UserId);
  }
}
