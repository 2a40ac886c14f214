/**
 * The provider's closed algorithm catalogue: the names it advertises
 * (`gcryptProvider::features`) and the descriptor its factory builds for a
 * name (`gcryptProvider::createContext`).
 */
module Catalogue {
  import opened Wrappers
  import opened Gcrypt

  /** What `createContext` passes to the context it builds for a name. */
  datatype Descriptor =
    | Hash(md: int)                                  // gcryHashContext(md)
    | Cipher(algorithm: int, mode: int, pad: bool)  // gcryCipherContext(algorithm, mode, pad)
    | Kdf(md: int)                                   // pbkdf2Context(md)

  /** The advertised names, in the order `features()` lists them. */
  function Features(): (names: seq<string>)
    ensures |names| == 22
    ensures forall i, j :: 0 <= i < j < |names| ==> names[i] != names[j]
  {
    ["sha1", "md4", "md5", "ripemd160", "sha256", "sha384", "sha512",
     "aes128-ecb", "aes128-cfb", "aes128-cbc",
     "aes192-ecb", "aes192-cfb", "aes192-cbc",
     "aes256-ecb", "aes256-cfb", "aes256-cbc",
     "blowfish-ecb", "tripledes-ecb",
     "des-ecb", "des-cbc", "des-cfb",
     "pbkdf2(sha1)"]
  }

  /**
   * The chain of name comparisons in `createContext`: the descriptor of the
   * context built for `name`, or None where the factory returns null.
   */
  function Lookup(name: string): (d: Option<Descriptor>)
    ensures d.Some? && d.value.Cipher? ==> !d.value.pad
  {
    if name == "sha1" then Some(Hash(MD_SHA1))
    else if name == "md4" then Some(Hash(MD_MD4))
    else if name == "md5" then Some(Hash(MD_MD5))
    else if name == "ripemd160" then Some(Hash(MD_RMD160))
    else if name == "sha256" then Some(Hash(MD_SHA256))
    else if name == "sha384" then Some(Hash(MD_SHA384))
    else if name == "sha512" then Some(Hash(MD_SHA512))
    else if name == "aes128-ecb" then Some(Cipher(CIPHER_AES128, MODE_ECB, false))
    else if name == "aes128-cfb" then Some(Cipher(CIPHER_AES128, MODE_CFB, false))
    else if name == "aes128-cbc" then Some(Cipher(CIPHER_AES128, MODE_CBC, false))
    else if name == "aes192-ecb" then Some(Cipher(CIPHER_AES192, MODE_ECB, false))
    else if name == "aes192-cfb" then Some(Cipher(CIPHER_AES192, MODE_CFB, false))
    else if name == "aes192-cbc" then Some(Cipher(CIPHER_AES192, MODE_CBC, false))
    else if name == "aes256-ecb" then Some(Cipher(CIPHER_AES256, MODE_ECB, false))
    else if name == "aes256-cfb" then Some(Cipher(CIPHER_AES256, MODE_CFB, false))
    else if name == "aes256-cbc" then Some(Cipher(CIPHER_AES256, MODE_CBC, false))
    else if name == "blowfish-ecb" then Some(Cipher(CIPHER_BLOWFISH, MODE_ECB, false))
    else if name == "tripledes-ecb" then Some(Cipher(CIPHER_3DES, MODE_ECB, false))
    else if name == "des-ecb" then Some(Cipher(CIPHER_DES, MODE_ECB, false))
    else if name == "des-cbc" then Some(Cipher(CIPHER_DES, MODE_CBC, false))
    else if name == "des-cfb" then Some(Cipher(CIPHER_DES, MODE_CFB, false))
    else if name == "pbkdf2(sha1)" then Some(Kdf(MD_SHA1))
    else None
  }

  /** The factory builds a context for a name exactly when `features()` advertises it. */
  lemma FactoryAgreesWithFeatures(name: string)
    ensures Lookup(name).Some? <==> name in Features()
  {
  }

  // The naming convention of cipher names: "<algorithm>-<mode>".

  /** The cipher algorithm an algorithm prefix names. */
  function CipherOfPrefix(prefix: string): Option<int>
  {
    if prefix == "aes128" then Some(CIPHER_AES128)
    else if prefix == "aes192" then Some(CIPHER_AES192)
    else if prefix == "aes256" then Some(CIPHER_AES256)
    else if prefix == "blowfish" then Some(CIPHER_BLOWFISH)
    else if prefix == "tripledes" then Some(CIPHER_3DES)
    else if prefix == "des" then Some(CIPHER_DES)
    else None
  }

  /**
   * The key size, in bits, that an algorithm prefix names by the algorithm's
   * own definition; None for Blowfish, whose key size is variable.
   */
  function NominalKeyBits(prefix: string): Option<nat>
  {
    if prefix == "aes128" then Some(128)
    else if prefix == "aes192" then Some(192)
    else if prefix == "aes256" then Some(256)
    else if prefix == "tripledes" then Some(192)
    else if prefix == "des" then Some(64)
    else None
  }

  /** The block mode a mode suffix names. */
  function ModeOfSuffix(suffix: string): Option<int>
  {
    if suffix == "ecb" then Some(MODE_ECB)
    else if suffix == "cbc" then Some(MODE_CBC)
    else if suffix == "cfb" then Some(MODE_CFB)
    else None
  }

  /** Splits "<prefix>-<xyz>" into its prefix and three-letter suffix. */
  function SplitCipherName(name: string): Option<(string, string)>
  {
    if |name| >= 4 && name[|name| - 4] == '-' then Some((name[..|name| - 4], name[|name| - 3..]))
    else None
  }

  /** The cipher descriptor a name denotes by its prefix and suffix alone, unpadded. */
  function ByNamingConvention(name: string): Option<Descriptor>
  {
    match SplitCipherName(name)
    case None => None
    case Some((prefix, suffix)) =>
      match (CipherOfPrefix(prefix), ModeOfSuffix(suffix))
      case (Some(algorithm), Some(mode)) => Some(Cipher(algorithm, mode, false))
      case _ => None
  }

  /**
   * Every cipher the factory builds is unpadded, with the algorithm its name's
   * prefix names and the mode its name's suffix names.
   */
  lemma CiphersFollowNamingConvention(name: string)
    requires Lookup(name).Some? && Lookup(name).value.Cipher?
    ensures Lookup(name) == ByNamingConvention(name)
    ensures !Lookup(name).value.pad
  {
    CipherNamesListed(name);
    if name == "aes128-ecb" || name == "aes128-cfb" || name == "aes128-cbc" {
      Aes128FollowsNamingConvention(name);
    } else if name == "aes192-ecb" || name == "aes192-cfb" || name == "aes192-cbc" {
      Aes192FollowsNamingConvention(name);
    } else if name == "aes256-ecb" || name == "aes256-cfb" || name == "aes256-cbc" {
      Aes256FollowsNamingConvention(name);
    } else if name == "des-ecb" || name == "des-cbc" || name == "des-cfb" {
      DesFollowsNamingConvention(name);
    } else {
      OtherFollowsNamingConvention(name);
    }
  }

  /** Case of CiphersFollowNamingConvention for AES128 names. */
  lemma Aes128FollowsNamingConvention(name: string)
    requires name == "aes128-ecb" || name == "aes128-cfb" || name == "aes128-cbc"
    ensures Lookup(name) == ByNamingConvention(name)
  {
  }

  /** Case of CiphersFollowNamingConvention for AES192 names. */
  lemma Aes192FollowsNamingConvention(name: string)
    requires name == "aes192-ecb" || name == "aes192-cfb" || name == "aes192-cbc"
    ensures Lookup(name) == ByNamingConvention(name)
  {
  }

  /** Case of CiphersFollowNamingConvention for AES256 names. */
  lemma Aes256FollowsNamingConvention(name: string)
    requires name == "aes256-ecb" || name == "aes256-cfb" || name == "aes256-cbc"
    ensures Lookup(name) == ByNamingConvention(name)
  {
  }

  /** Case of CiphersFollowNamingConvention for DES names. */
  lemma DesFollowsNamingConvention(name: string)
    requires name == "des-ecb" || name == "des-cbc" || name == "des-cfb"
    ensures Lookup(name) == ByNamingConvention(name)
  {
  }

  /** Case of CiphersFollowNamingConvention for the remaining ciphers. */
  lemma OtherFollowsNamingConvention(name: string)
    requires name == "blowfish-ecb" || name == "tripledes-ecb"
    ensures Lookup(name) == ByNamingConvention(name)
  {
  }

  /** The names the factory builds a cipher context for. */
  lemma CipherNamesListed(name: string)
    requires Lookup(name).Some? && Lookup(name).value.Cipher?
    ensures name in ["aes128-ecb", "aes128-cfb", "aes128-cbc", "aes192-ecb", "aes192-cfb", "aes192-cbc",
                     "aes256-ecb", "aes256-cfb", "aes256-cbc", "blowfish-ecb", "tripledes-ecb",
                     "des-ecb", "des-cbc", "des-cfb"]
  {
  }

  /** The names the factory builds a digest context for: the seven digest names `features()` lists first. */
  lemma DigestNamesListed(name: string)
    requires Lookup(name).Some? && Lookup(name).value.Hash?
    ensures name in ["sha1", "md4", "md5", "ripemd160", "sha256", "sha384", "sha512"]
  {
  }
}
