/** Stream identities (es/streamid.go) and the string keys built from them. */
module StreamIds {
  import opened Basics

  const SLUG_MAX := 128

  datatype StreamId = StreamId(tenant: string, typ: string, id: string)

  datatype IdError = TenantMissing | InvalidStreamId

  datatype IdResult = Valid(sid: StreamId) | Invalid(error: IdError)

  predicate SlugStart(c: char) { 'a' <= c <= 'z' || '0' <= c <= '9' }

  predicate SlugChar(c: char) { SlugStart(c) || c == '_' || c == '-' }

  predicate Slug(s: string) {
    1 <= |s| <= SLUG_MAX && SlugStart(s[0]) && forall i | 0 <= i < |s| :: SlugChar(s[i])
  }

  function Validate(s: StreamId): Option<IdError> {
    if s.tenant == "" then Some(TenantMissing)
    else if !Slug(s.typ) || !Slug(s.id) then Some(InvalidStreamId)
    else None
  }

  predicate IsValid(s: StreamId) { Validate(s) == None }

  function Canonical(s: StreamId): string { s.typ + [':'] + s.id }

  function NewStreamId(tenant: string, typ: string, id: string): IdResult {
    var sid := StreamId(tenant, typ, id);
    match Validate(sid)
    case Some(e) => Invalid(e)
    case None => Valid(sid)
  }

  function ParseCanonical(tenant: string, canonical: string): IdResult {
    var i := IndexOf(canonical, ':');
    if i <= 0 || i == |canonical| - 1 then Invalid(InvalidStreamId)
    else NewStreamId(tenant, canonical[..i], canonical[i + 1..])
  }

  /** Slugs hold neither of the two separators. */
  lemma SlugHasNoSeparator(s: string)
    requires Slug(s)
    ensures ':' !in s && '|' !in s
  {
  }

  lemma CanonicalHasNoBar(s: StreamId)
    requires IsValid(s)
    ensures '|' !in Canonical(s)
  {
    SlugHasNoSeparator(s.typ);
    SlugHasNoSeparator(s.id);
  }

  lemma CanonicalIndex(s: StreamId)
    requires IsValid(s)
    ensures IndexOf(Canonical(s), ':') == |s.typ|
  {
    hide Slug;
    var c := Canonical(s);
    SlugHasNoSeparator(s.typ);
    assert c[|s.typ|] == ':' && forall k | 0 <= k < |s.typ| :: c[k] == s.typ[k];
  }

  lemma CanonicalParses(s: StreamId)
    requires IsValid(s)
    ensures ParseCanonical(s.tenant, Canonical(s)) == Valid(s)
  {
    CanonicalIndex(s);
    var c, n := Canonical(s), |s.typ|;
    assert c[..n] == s.typ && c[n + 1..] == s.id;
  }

  lemma ParsedIsCanonical(tenant: string, canonical: string, s: StreamId)
    requires ParseCanonical(tenant, canonical) == Valid(s)
    ensures IsValid(s) && s.tenant == tenant && Canonical(s) == canonical
  {
    hide Slug;
    var i := IndexOf(canonical, ':');
    assert canonical == canonical[..i] + [':'] + canonical[i + 1..];
  }

  /** Parsing undoes Canonical on every valid identity, and only valid identities come out of it. */
  lemma ParseCanonicalRoundTrip(tenant: string, canonical: string, s: StreamId)
    ensures ParseCanonical(tenant, canonical) == Valid(s)
            <==> IsValid(s) && s.tenant == tenant && Canonical(s) == canonical
  {
    hide Slug, Canonical, ParseCanonical;
    if IsValid(s) && s.tenant == tenant && Canonical(s) == canonical {
      CanonicalParses(s);
    }
    if ParseCanonical(tenant, canonical) == Valid(s) {
      ParsedIsCanonical(tenant, canonical, s);
    }
  }

  // ---------------------------------------------------------------- tenant|stream keys

  /** The key `tenant|type:id` used by drains, projections and the cache rebuild. */
  function StreamKey(tenant: string, canonical: string): string { tenant + ['|'] + canonical }

  function KeyOf(s: StreamId): string { StreamKey(s.tenant, Canonical(s)) }

  /** Tenants are unconstrained text, yet no two valid streams share a key. */
  lemma StreamKeyInjective(s: StreamId, t: StreamId)
    requires IsValid(s) && IsValid(t)
    ensures KeyOf(s) == KeyOf(t) <==> s == t
  {
    if KeyOf(s) == KeyOf(t) {
      CanonicalHasNoBar(s);
      CanonicalHasNoBar(t);
      CutAtLast(s.tenant, Canonical(s), t.tenant, Canonical(t), '|');
      ParseCanonicalRoundTrip(s.tenant, Canonical(s), s);
      ParseCanonicalRoundTrip(t.tenant, Canonical(t), t);
    }
  }
}
