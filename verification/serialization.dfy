/** The serializers: a URI is written as its `uri` string and read back
    either through `SpotifyUri.serializer()` (the polymorphic reading) or
    through a concrete class's serializer (which keeps the bare-id fallback). */
module Serialization {
  import opened Wrappers
  import opened Grammar
  import opened Parser
  import opened Resolver

  /** Which serializer reads the string. */
  datatype Target = Polymorphic | Concrete(kind: Kind)

  /** The kinds a serializer can produce. */
  predicate Admits(t: Target, k: Kind)
  {
    t.Polymorphic? || t.kind == k
  }

  /** A value is written as its `uri`: its class's prefix, then its id. */
  function Serialize(u: Uri): (r: string)
    ensures Prefix(u.kind) <= r
    ensures r[|Prefix(u.kind)|..] == u.id
  {
    Canonical(u)
  }

  /** Reads a string with serializer `t`; failure is the whole read failing. */
  function Deserialize(t: Target, s: string): (r: Option<Uri>)
    ensures r.Some? ==> Valid(r.value) && Admits(t, r.value.kind)
  {
    match t
    case Polymorphic => Resolve(s)
    case Concrete(k) => ParseAs(k, s)
  }

  /** Reading back what was written gives the same value, through either
      serializer. */
  lemma SerializeRoundTrip(t: Target, u: Uri)
    requires Valid(u)
    requires Admits(t, u.kind)
    ensures Deserialize(t, Serialize(u)) == Some(u)
  {
    if t.Polymorphic? {
      ResolveRoundTrip(u);
    } else {
      CanonicalRoundTrip(u);
    }
  }

  /** Whatever a serializer reads, it writes in a form it reads back to the
      same value. */
  lemma DeserializeSerializeStable(t: Target, s: string)
    requires Deserialize(t, s).Some?
    ensures Deserialize(t, Serialize(Deserialize(t, s).value)) == Deserialize(t, s)
  {
    SerializeRoundTrip(t, Deserialize(t, s).value);
  }

  /** A bare id is refused by the polymorphic serializer and accepted by
      every concrete one. */
  lemma BareIdOnlyConcrete(k: Kind, id: string)
    requires IsBareId(id)
    ensures Deserialize(Polymorphic, id) == None
    ensures Deserialize(Concrete(k), id) == Some(Uri(k, id))
  {
    ResolveRefusesBareId(id);
  }

  /** The two serializers agree wherever the polymorphic one succeeds. */
  lemma PolymorphicAgreesWithConcrete(s: string)
    requires Deserialize(Polymorphic, s).Some?
    ensures Deserialize(Concrete(Deserialize(Polymorphic, s).value.kind), s) == Deserialize(Polymorphic, s)
  {
    ResolveCharacterized(s, Resolve(s).value);
  }
}
