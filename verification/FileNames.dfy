/** How a key triple becomes a path below the mappings directory, and back. */
module FileNames {
  import opened Types
  import opened Base64

  /** A path below the mappings directory, as its components. */
  type Path = seq<string>

  function Code(p: ProviderId): (n: nat)
    ensures n <= 5 && FromCode(n) == Some(p)
  {
    match p
    case Core => 0
    case MbedCrypto => 1
    case Pkcs11 => 2
    case Tpm => 3
    case TrustedService => 4
    case CryptoAuthLib => 5
  }

  function FromCode(n: nat): (r: Option<ProviderId>) {
    if n == 0 then Some(Core) else if n == 1 then Some(MbedCrypto) else if n == 2 then Some(Pkcs11)
    else if n == 3 then Some(Tpm) else if n == 4 then Some(TrustedService)
    else if n == 5 then Some(CryptoAuthLib) else None
  }

  /** The decimal spelling of a provider code, which has one digit. */
  function ProviderDir(p: ProviderId): (s: string) {
    [('0' as int + Code(p)) as char]
  }

  predicate AllDigits(s: string) { forall i | 0 <= i < |s| :: '0' <= s[i] <= '9' }

  function Decimal(s: string): (n: nat)
    requires AllDigits(s)
  {
    if |s| == 0 then 0 else Decimal(s[..|s| - 1]) * 10 + (s[|s| - 1] as int - '0' as int)
  }

  /** An unsigned byte as Rust parses it: an optional plus sign and any number of leading zeros. */
  function ParseU8(s: string): (r: Option<nat>) {
    var digits := if |s| > 0 && s[0] == '+' then s[1..] else s;
    if |digits| > 0 && AllDigits(digits) && Decimal(digits) < 256 then Some(Decimal(digits)) else None
  }

  function ProviderOf(dir: string): (r: Option<ProviderId>) {
    match ParseU8(dir)
    case Some(n) => FromCode(n)
    case None => None
  }

  lemma ProviderOfInvertsProviderDir(p: ProviderId)
    ensures ProviderOf(ProviderDir(p)) == Some(p)
  {
    var s := ProviderDir(p);
    assert s[..0] == [] && Decimal(s[..0]) == 0;
    assert Decimal(s) == Code(p);
  }

  /** What joining a component appends to a path: the empty string appends nothing. */
  function Component(s: string): (p: Path) { if s == "" then [] else [s] }

  function DirOf(t: KeyTriple): (p: Path) {
    Component(Encode(t.app)) + [ProviderDir(t.provider)]
  }

  function PathOf(t: KeyTriple): (p: Path) {
    DirOf(t) + Component(Encode(t.key))
  }

  function NameOf(file: string): (r: Option<Name>) {
    match Decode(file)
    case Some(b) => if ValidUtf8(b) then Some(b) else None
    case None => None
  }

  /** The triple that a file two directories deep stands for. */
  function TripleOf(f: Path): (r: Option<KeyTriple>)
    requires |f| == 3
  {
    match (NameOf(f[0]), ProviderOf(f[1]), NameOf(f[2]))
    case (Some(app), Some(provider), Some(key)) => Some(KeyTriple(app, provider, key))
    case _ => None
  }

  lemma EncodeEmpty(b: seq<Byte>)
    ensures |Encode(b)| % 4 == 0 && (Encode(b) == "" <==> b == [])
  {
    EncodedLength(b);
  }

  /** Names with at least one byte give a path of three components that decodes to the triple. */
  lemma TripleOfInvertsPathOf(t: KeyTriple)
    requires t.app != [] && t.key != []
    ensures |PathOf(t)| == 3 && TripleOf(PathOf(t)) == Some(t)
  {
    EncodeEmpty(t.app);
    EncodeEmpty(t.key);
    DecodeInvertsEncode(t.app);
    DecodeInvertsEncode(t.key);
    ProviderOfInvertsProviderDir(t.provider);
  }

  /** A path of three components comes from a triple with two non-empty names. */
  lemma PathDepth(t: KeyTriple)
    ensures |PathOf(t)| == 1 + (if t.app == [] then 0 else 1) + (if t.key == [] then 0 else 1)
    ensures |DirOf(t)| == 1 + (if t.app == [] then 0 else 1)
    ensures |DirOf(t)[|DirOf(t)| - 1]| == 1
    ensures t.app != [] ==> |DirOf(t)[0]| % 4 == 0
    ensures t.key != [] ==> |PathOf(t)[|PathOf(t)| - 1]| % 4 == 0
  {
    EncodeEmpty(t.app);
    EncodeEmpty(t.key);
  }

  /** No two triples share a path, not even triples with empty names. */
  lemma PathOfInjective(t: KeyTriple, u: KeyTriple)
    requires PathOf(t) == PathOf(u)
    ensures t == u
  {
    PathDepth(t);
    PathDepth(u);
    EncodeEmpty(t.app);
    EncodeEmpty(u.app);
    var p := PathOf(t);
    assert (t.app == []) == (u.app == []);
    var at := if t.app == [] then 0 else 1;
    assert p[at] == ProviderDir(t.provider) == ProviderDir(u.provider);
    ProviderOfInvertsProviderDir(t.provider);
    ProviderOfInvertsProviderDir(u.provider);
    if t.app != [] {
      assert p[0] == Encode(t.app) == Encode(u.app);
      EncodeInjective(t.app, u.app);
    }
    if t.key != [] {
      assert p[at + 1] == Encode(t.key) == Encode(u.key);
      EncodeInjective(t.key, u.key);
    }
  }

  /** No component is empty, holds a separator or is one of the dot directories. */
  lemma ComponentsAreSafe(t: KeyTriple, c: string)
    requires c in PathOf(t)
    ensures c != "" && '/' !in c && '.' !in c
  {
    EncodedShape(t.app);
    EncodedShape(t.key);
  }

  /** A file of one triple is never a directory, or an ancestor of a file, of another. */
  lemma FilesAreNotDirectories(t: KeyTriple, u: KeyTriple)
    requires t.key != []
    ensures !(PathOf(t) <= DirOf(u))
  {
    PathDepth(t);
    PathDepth(u);
  }

  /** An empty key name stands for the provider directory itself. */
  lemma EmptyKeyIsDirectory(t: KeyTriple)
    requires t.key == []
    ensures PathOf(t) == DirOf(t)
  {
    EncodeEmpty(t.key);
  }
}
