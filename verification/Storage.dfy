/** The storage back-end selector of storage/storage.go: the four storage
    type constants, the case-insensitive parser of a configured name, and the
    dispatch that picks a concrete store for a type. */
module Storage {
  import opened Base

  /** The `Type` constants. */
  datatype StoreType = S3 | Spaces | Diskv | Redis

  /** The string value each constant carries in the source. */
  function TypeName(t: StoreType): string
  {
    match t
    case S3 => "S3"
    case Spaces => "Spaces"
    case Diskv => "Diskv"
    case Redis => "Redis"
  }

  /** ParseType: lower-cases its input and matches it against the four
      names; anything else gives nil (None). */
  function ParseType(s: string): (r: Option<StoreType>)
    ensures r == Some(S3) <==> ToLower(s) == "s3"
    ensures r == Some(Spaces) <==> ToLower(s) == "spaces"
    ensures r == Some(Diskv) <==> ToLower(s) == "diskv"
    ensures r == Some(Redis) <==> ToLower(s) == "redis"
  {
    match ToLower(s)
    case "s3" => Some(S3)
    case "spaces" => Some(Spaces)
    case "diskv" => Some(Diskv)
    case "redis" => Some(Redis)
    case _ => None
  }

  /** The concrete store kinds NewStore can build. */
  datatype Backend = S3Backend(endpointFromConfig: bool) | DiskvBackend(cacheSizeMax: nat) | RedisBackend

  /** NewStore switches on the Type's string value: S3 and Spaces both
      build an S3-backed store (Spaces with an explicit endpoint), Diskv a
      disk store with a 1 MiB cache, Redis a Redis connection; any other
      value gives nil. */
  function NewStore(t: string): (r: Option<Backend>)
    ensures r.Some? <==> t in {"S3", "Spaces", "Diskv", "Redis"}
    ensures (t == "S3" || t == "Spaces") <==> (r.Some? && r.value.S3Backend?)
    ensures t == "Diskv" ==> r == Some(DiskvBackend(1024 * 1024))
  {
    match t
    case "Diskv" => Some(DiskvBackend(1024 * 1024))
    case "S3" => Some(S3Backend(false))
    case "Spaces" => Some(S3Backend(true))
    case "Redis" => Some(RedisBackend)
    case _ => None
  }

  /** ToLower is idempotent on the ASCII model. */
  lemma {:induction false} ToLowerIdempotent(s: string)
    ensures ToLower(ToLower(s)) == ToLower(s)
  {
    if s != [] {
      ToLowerIdempotent(s[1..]);
      assert ToLower(s)[1..] == ToLower(s[1..]);
    }
  }

  /** Case-insensitivity: lower-casing first changes nothing. */
  lemma ParseTypeCaseInsensitive(s: string)
    ensures ParseType(ToLower(s)) == ParseType(s)
  {
    ToLowerIdempotent(s);
  }

  /** Every constant's own name parses back to it. */
  lemma ParseTypeName(t: StoreType)
    ensures ParseType(TypeName(t)) == Some(t)
  {
    match t
    case S3 => assert ToLower("S3") == "s3";
    case Spaces => assert ToLower("Spaces") == "spaces";
    case Diskv => assert ToLower("Diskv") == "diskv";
    case Redis => assert ToLower("Redis") == "redis";
  }

  /** The four constants carry pairwise distinct names. */
  lemma TypeNamesDistinct(a: StoreType, b: StoreType)
    requires a != b
    ensures TypeName(a) != TypeName(b)
  {
    ParseTypeName(a);
    ParseTypeName(b);
  }

  /** Whatever ParseType recognises, NewStore can build a store for. */
  lemma ParsedTypeHasStore(s: string)
    requires ParseType(s).Some?
    ensures NewStore(TypeName(ParseType(s).value)).Some?
  {
  }
}
