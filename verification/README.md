# Spotify URI identifiers, modelled in Dafny

This project models the typed identifier family of the Kotlin Spotify Web API
wrapper: `SpotifyTrackUri`, `LocalTrackUri`, `UserUri`, `PlaylistUri`,
`AlbumUri` and `ArtistUri`. It also models the polymorphic `SpotifyUri(...)`
constructor and its serializer, the `PlayableUri(...)` resolver, and the
`SpotifyUri.isType` / `SpotifyUri.canBeType` probes.

The production classes are not part of this model. The grammar is rebuilt from
what the library's test suite `UrisTests.kt` asserts:

- A canonical URI is `com.adamratzman.spotify:<kind>:<id>`.
- The kind tokens are `track`, `local`, `user`, `playlist`, `album` and `artist`.
- A bare id is a non-empty string without `:`. Every concrete class accepts a
  bare id as its own id; `SpotifyUri` refuses it.
- A user URI may carry `:playlist:<id>` after the user id, where the playlist id
  is non-empty and may contain colons.
  - `UserUri` keeps only the user part.
  - `PlaylistUri` keeps only the playlist part.
- `com.adamratzman.spotify:user:` is a user with the empty id.
- A track, local-track, playlist, album or artist id is everything after its
  prefix, colons included, and must be non-empty. A user id ends at its first colon.
- A failed construction yields no value at all. It is `None`, standing for the
  single `SpotifyUriException`.

Files:

- `wrappers.dfy`: `Option`.
- `grammar.dfy` (module `Grammar`): kinds, namespace, prefixes, bare ids,
  well-formed ids, `Canonical` (the `uri` property) and the user/playlist path.
- `parser.dfy` (module `Parser`): `ParseAs(k, s)`, the concrete constructors.
  - `Spells` is an independent reference definition of the spellings of a value.
  - `ParseAsCharacterized` proves `ParseAs` agrees with `Spells` in both directions.
- `resolver.dfy` (module `Resolver`): `Resolve` (`SpotifyUri(...)`) and
  `ResolvePlayable` (`PlayableUri(...)`).
- `serialization.dfy` (module `Serialization`): the polymorphic and the concrete
  serializers, as `Serialize` / `Deserialize`.
- `probes.dfy` (module `Probes`): `IsType` and `CanBeType`.
- `uris_tests.dfy` (module `UrisTests`): each test assertion, stated as a lemma
  about the model.

## Model

| member | source | states |
|---|---|---|
| Grammar.ParseUserPath | src/commonTest/kotlin/com.adamratzman/spotify/utilities/UrisTests.kt:208-216 | reading the text after the user prefix succeeds only on a colon-free user id, optionally followed by `:playlist:` and a non-empty playlist id (colons allowed); the parts it returns reassemble into exactly the text it read |
| Grammar.Canonical | src/commonTest/kotlin/com.adamratzman/spotify/utilities/UrisTests.kt:39-48 | a value's `uri` starts with its class's prefix, the text after that prefix is exactly its `id`, and a `uri` is never a bare id |
| Grammar.ParseUserPathComplete | src/commonTest/kotlin/com.adamratzman/spotify/utilities/UrisTests.kt:270-278 | every well-formed user path (user id with or without an embedded playlist) is read back to the same user and playlist ids |
| Grammar.PrefixesExclusive | src/commonTest/kotlin/com.adamratzman/spotify/utilities/UrisTests.kt:183-191 | no string carries the prefixes of two different classes, so the class a prefixed URI names is never ambiguous |
| Grammar.CanonicalInjective | src/commonTest/kotlin/com.adamratzman/spotify/utilities/UrisTests.kt:39-48 | two values with the same `uri` have the same class and the same `id` |
| Parser.ParseAs | src/commonTest/kotlin/com.adamratzman/spotify/utilities/UrisTests.kt:25-58 | a constructor either fails as a whole or yields a value of its own class with a well-formed id; it only succeeds on a bare id, on its own prefix, or (for a playlist) on the user prefix |
| Parser.ParseAsSound | src/commonTest/kotlin/com.adamratzman/spotify/utilities/UrisTests.kt:39-58 | every input a constructor accepts is one of the documented spellings of the value it returns: bare id, canonical `uri`, or a user URI with an embedded playlist |
| Parser.ParseAsComplete | src/commonTest/kotlin/com.adamratzman/spotify/utilities/UrisTests.kt:177-226 | every documented spelling of a well-formed value is accepted by that value's constructor and yields exactly that value |
| Parser.ParseAsCharacterized | src/commonTest/kotlin/com.adamratzman/spotify/utilities/UrisTests.kt:249-278 | a constructor of class `k` yields `u` from `s` if and only if `u` has class `k`, has a well-formed id and `s` spells `u` |
| Parser.CanonicalRoundTrip | src/commonTest/kotlin/com.adamratzman/spotify/utilities/UrisTests.kt:39-48 | constructing from a value's `uri` gives the same value, so `uri` equals the input and `id` is the text after the prefix (all six classes, empty user id included) |
| Parser.BareIdFallback | src/commonTest/kotlin/com.adamratzman/spotify/utilities/UrisTests.kt:50-58 | a bare id given to any concrete class keeps its `id` and gets the `uri` `com.adamratzman.spotify:<kind>:<id>` |
| Parser.NormalFormStable | src/commonTest/kotlin/com.adamratzman/spotify/utilities/UrisTests.kt:208-216 | constructing again from the `uri` of any constructed value yields the same value, so the `uri` is a normal form |
| Parser.UnprefixedColonRejected | src/commonTest/kotlin/com.adamratzman/spotify/utilities/UrisTests.kt:25-32 | an input with a colon but without the class's prefix fails; for a playlist, only when it also lacks the user prefix |
| Parser.ForeignPrefixRejected | src/commonTest/kotlin/com.adamratzman/spotify/utilities/UrisTests.kt:34-36 | an input carrying another class's prefix fails; the only exception is a playlist reading a user URI |
| Parser.UserPlaylistPath | src/commonTest/kotlin/com.adamratzman/spotify/utilities/UrisTests.kt:208-216 | from `<ns>:user:U:playlist:P`, `UserUri` yields `id` U with `uri` `<ns>:user:U`, and `PlaylistUri` yields `id` P with `uri` `<ns>:playlist:P` |
| Resolver.PrefixKind | src/commonTest/kotlin/com.adamratzman/spotify/utilities/UrisTests.kt:188-191 | the class found for an input is one whose prefix the input carries; when none is found, the input carries no class prefix at all |
| Resolver.PrefixKindExact | src/commonTest/kotlin/com.adamratzman/spotify/utilities/UrisTests.kt:188-191 | the class found is `k` exactly when the input carries `k`'s prefix, so the order in which classes are tried never decides anything |
| Resolver.Resolve | src/commonTest/kotlin/com.adamratzman/spotify/utilities/UrisTests.kt:183-186 | `SpotifyUri(...)` only ever yields values with a well-formed id |
| Resolver.ResolveCharacterized | src/commonTest/kotlin/com.adamratzman/spotify/utilities/UrisTests.kt:183-191 | `SpotifyUri(s)` yields `u` if and only if `s` carries `u`'s class prefix and that class's constructor yields `u` from `s` |
| Resolver.ResolveRefusesBareId | src/commonTest/kotlin/com.adamratzman/spotify/utilities/UrisTests.kt:387-391 | `SpotifyUri` refuses every bare id |
| Resolver.ResolveRoundTrip | src/commonTest/kotlin/com.adamratzman/spotify/utilities/UrisTests.kt:368-379 | `SpotifyUri` applied to the `uri` of any well-formed value yields that value, with its concrete class |
| Resolver.ResolvePlayable | src/commonTest/kotlin/com.adamratzman/spotify/utilities/UrisTests.kt:109-154 | `PlayableUri(...)` only yields tracks and local tracks, with well-formed ids |
| Resolver.ResolvePlayableCharacterized | src/commonTest/kotlin/com.adamratzman/spotify/utilities/UrisTests.kt:110-154 | `PlayableUri(s)` yields `u` if and only if `u` is a track built from `s`, or a local track built from an `s` with the local prefix; bare ids therefore become tracks |
| Resolver.ResolvePlayableRefusesOtherKinds | src/commonTest/kotlin/com.adamratzman/spotify/utilities/UrisTests.kt:104-106 | an input with a user, playlist, album or artist prefix is refused by `PlayableUri` |
| Resolver.ResolvePlayableRoundTrip | src/commonTest/kotlin/com.adamratzman/spotify/utilities/UrisTests.kt:110-139 | `PlayableUri` applied to the `uri` of a track or local track yields that value with its class |
| Serialization.Serialize | src/commonTest/kotlin/com.adamratzman/spotify/utilities/UrisTests.kt:366-386 | a value is written as its `uri`: its class's prefix followed by exactly its `id` |
| Serialization.Deserialize | src/commonTest/kotlin/com.adamratzman/spotify/utilities/UrisTests.kt:366-398 | a serializer only ever yields well-formed values of a class it can produce |
| Serialization.SerializeRoundTrip | src/commonTest/kotlin/com.adamratzman/spotify/utilities/UrisTests.kt:368-386 | reading a written value back gives the same value, through `SpotifyUri.serializer()` and through its own class's serializer |
| Serialization.DeserializeSerializeStable | src/commonTest/kotlin/com.adamratzman/spotify/utilities/UrisTests.kt:392-398 | whatever a serializer reads, it writes as a string it reads back to the same value |
| Serialization.BareIdOnlyConcrete | src/commonTest/kotlin/com.adamratzman/spotify/utilities/UrisTests.kt:387-398 | a bare id is refused by `SpotifyUri.serializer()` and accepted by every concrete class's serializer |
| Serialization.PolymorphicAgreesWithConcrete | src/commonTest/kotlin/com.adamratzman/spotify/utilities/UrisTests.kt:368-386 | where `SpotifyUri.serializer()` succeeds, the serializer of the class it picked reads the same value |
| Probes.IsTypeCharacterized | src/commonTest/kotlin/com.adamratzman/spotify/utilities/UrisTests.kt:401-410 | `isType<K>(s)` holds if and only if `s` carries K's prefix and K's constructor accepts `s` |
| Probes.IsType | src/commonTest/kotlin/com.adamratzman/spotify/utilities/UrisTests.kt:401-410 | `isType<K>(s)` holds only for an input carrying class K's own prefix, and then K's constructor and `SpotifyUri` give the same value |
| Probes.CanBeTypeCharacterized | src/commonTest/kotlin/com.adamratzman/spotify/utilities/UrisTests.kt:411-420 | `canBeType<K>(s)` holds if and only if K's constructor accepts `s`, except on a user URI probed as a playlist, where it is false |
| Probes.CanBeType | src/commonTest/kotlin/com.adamratzman/spotify/utilities/UrisTests.kt:411-420 | `canBeType<K>(s)`, defined as `isType<K>(s)` or `s` is a bare id, holds only when K's own constructor accepts `s` |
| Probes.ProbesOnUserPlaylist | src/commonTest/kotlin/com.adamratzman/spotify/utilities/UrisTests.kt:270-278 | `PlaylistUri` accepts `<ns>:user:U:playlist:P`, yet neither `isType<PlaylistUri>` nor `canBeType<PlaylistUri>` holds for it |
| Probes.ProbesOnBareId | src/commonTest/kotlin/com.adamratzman/spotify/utilities/UrisTests.kt:406-420 | on a bare id, `isType` is false and `canBeType` is true, for every class |
| Probes.ProbesOnCanonical | src/commonTest/kotlin/com.adamratzman/spotify/utilities/UrisTests.kt:401-415 | on a well-formed `uri`, `isType` and `canBeType` hold for its class, and `isType` fails for every other class |
| UrisTests.TrackRejectsInvalidInput | src/commonTest/kotlin/com.adamratzman/spotify/utilities/UrisTests.kt:25-37 | `SpotifyTrackUri` fails on `a:invalid` and on a user URI |
| UrisTests.TrackAcceptsValidInput | src/commonTest/kotlin/com.adamratzman/spotify/utilities/UrisTests.kt:39-59 | `SpotifyTrackUri` gives the track `uri` and `id` from the canonical form and from the bare id |
| UrisTests.LocalTrackRejectsInvalidInput | src/commonTest/kotlin/com.adamratzman/spotify/utilities/UrisTests.kt:63-79 | `LocalTrackUri` fails on `a:invalid`, on a user URI and on the unprefixed `artist:album:name:id` |
| UrisTests.LocalTrackAcceptsValidInput | src/commonTest/kotlin/com.adamratzman/spotify/utilities/UrisTests.kt:81-91 | `LocalTrackUri` keeps `artist:album:name:id` as its `id` and the input as its `uri` |
| UrisTests.PlayableRejectsInvalidInput | src/commonTest/kotlin/com.adamratzman/spotify/utilities/UrisTests.kt:95-107 | `PlayableUri` fails on `a:invalid` and on a user URI |
| UrisTests.PlayableRemoteTrackFromUri | src/commonTest/kotlin/com.adamratzman/spotify/utilities/UrisTests.kt:110-124 | `PlayableUri` on a track URI yields a track with that `uri` and `id` |
| UrisTests.PlayableLocalTrackFromUri | src/commonTest/kotlin/com.adamratzman/spotify/utilities/UrisTests.kt:125-139 | `PlayableUri` on a local-track URI with a single-field id yields a local track with that `uri` and `id` |
| UrisTests.PlayableRemoteTrackFromId | src/commonTest/kotlin/com.adamratzman/spotify/utilities/UrisTests.kt:140-154 | `PlayableUri` on a bare id yields a track with the canonical track `uri` |
| UrisTests.UserRejectsInvalidInput | src/commonTest/kotlin/com.adamratzman/spotify/utilities/UrisTests.kt:159-175 | `UserUri` fails on `a:invalid` and on a track URI |
| UrisTests.UserAcceptsUri | src/commonTest/kotlin/com.adamratzman/spotify/utilities/UrisTests.kt:178-196 | `UserUri` on the canonical user URI keeps it as `uri` and yields the user id |
| UrisTests.SpotifyUriResolvesUser | src/commonTest/kotlin/com.adamratzman/spotify/utilities/UrisTests.kt:183-191 | `SpotifyUri` on the canonical user URI yields the `UserUri` with the user id, whose `uri` is that input |
| UrisTests.UserAcceptsId | src/commonTest/kotlin/com.adamratzman/spotify/utilities/UrisTests.kt:198-206 | `UserUri` on a bare id yields that id and the canonical user `uri` |
| UrisTests.UserDropsPlaylistClause | src/commonTest/kotlin/com.adamratzman/spotify/utilities/UrisTests.kt:208-216 | `UserUri` on a user URI with an embedded playlist keeps only the user id and `uri` |
| UrisTests.UserAcceptsEmptyId | src/commonTest/kotlin/com.adamratzman/spotify/utilities/UrisTests.kt:218-226 | `UserUri("com.adamratzman.spotify:user:")` succeeds with the empty `id` and that `uri` |
| UrisTests.PlaylistRejectsInvalidInput | src/commonTest/kotlin/com.adamratzman/spotify/utilities/UrisTests.kt:231-247 | `PlaylistUri` fails on `a:invalid` and on a track URI |
| UrisTests.PlaylistAcceptsUri | src/commonTest/kotlin/com.adamratzman/spotify/utilities/UrisTests.kt:250-258 | `PlaylistUri` on the canonical playlist URI keeps it as `uri` and yields the playlist id |
| UrisTests.PlaylistAcceptsId | src/commonTest/kotlin/com.adamratzman/spotify/utilities/UrisTests.kt:260-268 | `PlaylistUri` on a bare id yields that id and the canonical playlist `uri` |
| UrisTests.PlaylistFromUserPath | src/commonTest/kotlin/com.adamratzman/spotify/utilities/UrisTests.kt:270-278 | `PlaylistUri` on a user URI with an embedded playlist yields the playlist id and the canonical playlist `uri` |
| UrisTests.AlbumRejectsInvalidInput | src/commonTest/kotlin/com.adamratzman/spotify/utilities/UrisTests.kt:283-299 | `AlbumUri` fails on `a:invalid` and on a user URI |
| UrisTests.AlbumAcceptsValidInput | src/commonTest/kotlin/com.adamratzman/spotify/utilities/UrisTests.kt:301-321 | `AlbumUri` gives the album `uri` and `id` from the canonical form and from the bare id |
| UrisTests.ArtistRejectsInvalidInput | src/commonTest/kotlin/com.adamratzman/spotify/utilities/UrisTests.kt:325-341 | `ArtistUri` fails on `a:invalid` and on a user URI |
| UrisTests.ArtistAcceptsValidInput | src/commonTest/kotlin/com.adamratzman/spotify/utilities/UrisTests.kt:343-363 | `ArtistUri` gives the artist `uri` and `id` from the canonical form and from the bare id |
| UrisTests.SerializerReadsUserUri | src/commonTest/kotlin/com.adamratzman/spotify/utilities/UrisTests.kt:368-386 | both `SpotifyUri.serializer()` and `UserUri.serializer()` read the canonical user URI as a `UserUri` with that `uri` |
| UrisTests.SerializerReadsUserId | src/commonTest/kotlin/com.adamratzman/spotify/utilities/UrisTests.kt:387-398 | `SpotifyUri.serializer()` refuses a bare user id, and `UserUri.serializer()` reads it as the canonical user `uri` |
| UrisTests.UserProbes | src/commonTest/kotlin/com.adamratzman/spotify/utilities/UrisTests.kt:400-420 | `isType<UserUri>` holds for the user URI and not for the bare id; `canBeType<UserUri>` holds for both |

## Left out

- The production classes (`SpotifyUri`, the concrete URI classes, `SpotifyUriException`) are not part of this model. The model follows what `UrisTests.kt` pins down:
  - A local-track id is any non-empty text after `com.adamratzman.spotify:local:`. UrisTests.kt lines 125-139 accept the single-field id `1Z9UVqWuRJ7zToOiVnlXRO`, so no field structure is required.
  - Every failure is `None`, because the tests only observe `SpotifyUriException` (UrisTests.kt lines 25-37, 63-79 and the other rejection blocks).
  - `PrefixKind` tries the classes in declared order, and `PrefixKindExact` proves the order never decides anything, since at most one prefix fits.
- Ids after an ordinary prefix (track, local, playlist, album, artist) are taken verbatim, colons included, because the tests pin no restriction on them. A user id stops at its first colon, because a colon there starts the embedded `:playlist:` clause.
- After a user id only `:playlist:<non-empty id>` may follow. Anything else fails, for example `…:user:U:foo` and `…:user:U:playlist:`. The tests pin none of these inputs.
- Probes.CanBeType: `canBeType<K>` is read as "`isType<K>` or a bare id", so it is false for `PlaylistUri` on `…:user:U:playlist:P` even though `PlaylistUri` accepts that string. The tests only probe `UserUri` (UrisTests.kt lines 411-420), so they pin neither reading; `ProbesOnUserPlaylist` states the one chosen.
- Empty ids after the track, local, playlist, album or artist prefix, and the empty input, are not pinned either. The model rejects them. An empty user id is accepted, as the tests require.
- The character set and length of ids are not validated, because nothing in the tests constrains them.
- The kotlinx.serialization JSON layer (`Json`, `JsonConfiguration`, string quoting) is left out because it is a foreign library. A serializer is modelled as the choice between `Resolve` and a concrete `ParseAs`.
- The Spek test harness and Kotlin reflection are left out. A `::class` comparison becomes a comparison of the `kind` tag.
- Exception messages are left out, because no test observes them.
