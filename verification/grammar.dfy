/** The identifier grammar shared by every Spotify URI type: the namespace,
    the kind tokens, the canonical prefixed form, bare ids, and the combined
    `user:<id>:playlist:<id>` path. */
module Grammar {
  import opened Wrappers

  /** The closed family of concrete URI classes. */
  datatype Kind = Track | LocalTrack | User | Playlist | Album | Artist

  /** The namespace every canonical URI starts with. */
  const Namespace: string := "com.adamratzman.spotify"

  /** Text that introduces an embedded playlist in a user URI. */
  const PlaylistClause: string := ":playlist:"

  function Token(k: Kind): string
  {
    match k
    case Track => "track"
    case LocalTrack => "local"
    case User => "user"
    case Playlist => "playlist"
    case Album => "album"
    case Artist => "artist"
  }

  /** `<namespace>:<token>:` — what a canonical URI of kind `k` starts with. */
  function Prefix(k: Kind): string
  {
    Namespace + ":" + Token(k) + ":"
  }

  /** A bare id: an id given without namespace or kind, so non-empty and colon-free. */
  predicate IsBareId(s: string)
  {
    s != [] && ':' !in s
  }

  /** The ids a value of kind `k` may hold. A user id may be empty
      (`<ns>:user:` is accepted) but has no colon, since a colon starts the
      embedded playlist clause; every other id is the non-empty remainder after
      its prefix, taken verbatim (a local-track id keeps its internal colons). */
  predicate ValidId(k: Kind, id: string)
  {
    match k
    case User => ':' !in id
    case _ => id != []
  }

  /** A constructed URI: the concrete class as `kind`, and its `id`. */
  datatype Uri = Uri(kind: Kind, id: string)

  predicate Valid(u: Uri)
  {
    ValidId(u.kind, u.id)
  }

  /** The `uri` property of a constructed value: it names the class by its
      prefix and gives back the `id` as the text after that prefix. */
  function Canonical(u: Uri): (r: string)
    ensures Prefix(u.kind) <= r
    ensures r[|Prefix(u.kind)|..] == u.id
    ensures !IsBareId(r)
  {
    var r := Prefix(u.kind) + u.id;
    assert r[|Namespace|] == ':';
    r
  }

  /** Position of the first colon in `s`, or `|s|` when there is none. */
  function ColonIndex(s: string): (i: nat)
    ensures i <= |s|
    ensures ':' !in s[..i]
    ensures i < |s| ==> s[i] == ':'
  {
    if s == [] || s[0] == ':' then 0
    else
      var j := ColonIndex(s[1..]);
      assert s[..j + 1] == [s[0]] + s[1..][..j];
      j + 1
  }

  lemma {:induction false} ColonIndexAfterColonFree(a: string, b: string)
    requires ':' !in a
    requires b == [] || b[0] == ':'
    ensures ColonIndex(a + b) == |a|
  {
    if a != [] {
      assert (a + b)[0] == a[0];
      assert (a + b)[1..] == a[1..] + b;
      ColonIndexAfterColonFree(a[1..], b);
    }
  }

  /** What follows `<namespace>:user:` — a user id, optionally followed by
      `:playlist:<playlist id>`. */
  datatype UserPath = UserPath(user: string, playlist: Option<string>)

  predicate ValidUserPath(p: UserPath)
  {
    ':' !in p.user && (p.playlist.Some? ==> p.playlist.value != [])
  }

  function UserPathText(p: UserPath): string
  {
    match p.playlist
    case None => p.user
    case Some(pl) => p.user + PlaylistClause + pl
  }

  /** Reads the text after the user prefix; fails on anything but the two
      documented shapes. */
  function ParseUserPath(rest: string): (r: Option<UserPath>)
    ensures r.Some? ==> ValidUserPath(r.value) && UserPathText(r.value) == rest
  {
    var i := ColonIndex(rest);
    if i == |rest| then
      assert rest[..i] == rest;
      Some(UserPath(rest, None))
    else
      var tail := rest[i..];
      if PlaylistClause <= tail && tail[|PlaylistClause|..] != [] then
        var pl := tail[|PlaylistClause|..];
        assert rest == rest[..i] + PlaylistClause + pl;
        Some(UserPath(rest[..i], Some(pl)))
      else
        None
  }

  /** Every well-formed user path is read back exactly. */
  lemma ParseUserPathComplete(p: UserPath)
    requires ValidUserPath(p)
    ensures ParseUserPath(UserPathText(p)) == Some(p)
  {
    match p.playlist
    case None =>
      ColonIndexAfterColonFree(p.user, []);
      assert p.user + [] == p.user;
    case Some(pl) =>
      var text := UserPathText(p);
      assert text == p.user + (PlaylistClause + pl);
      ColonIndexAfterColonFree(p.user, PlaylistClause + pl);
      assert text[|p.user|..] == PlaylistClause + pl;
      assert text[..|p.user|] == p.user;
  }

  /** No string carries two different kind prefixes: the prefixes already
      differ inside the kind token. */
  lemma PrefixesExclusive(k1: Kind, k2: Kind, s: string)
    requires k1 != k2
    requires Prefix(k1) <= s
    ensures !(Prefix(k2) <= s)
  {
    // The tokens differ in their first letter, except `album` and `artist`,
    // which differ in their second.
    var j := if k1 in {Album, Artist} && k2 in {Album, Artist} then |Namespace| + 2 else |Namespace| + 1;
    assert Prefix(k1)[j] != Prefix(k2)[j];
    assert s[j] == Prefix(k1)[j];
  }

  /** A string carrying a kind prefix is never a bare id. */
  lemma PrefixedIsNotBare(k: Kind, s: string)
    requires Prefix(k) <= s
    ensures ':' in s
    ensures !IsBareId(s)
  {
    assert s[|Namespace|] == Prefix(k)[|Namespace|] == ':';
  }

  /** Equal `uri` strings denote equal values. */
  lemma CanonicalInjective(u1: Uri, u2: Uri)
    requires Canonical(u1) == Canonical(u2)
    ensures u1 == u2
  {
    if u1.kind != u2.kind {
      PrefixesExclusive(u1.kind, u2.kind, Canonical(u1));
    } else {
      assert u1.id == Canonical(u1)[|Prefix(u1.kind)|..];
    }
  }
}
