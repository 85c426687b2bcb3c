/** The pure checks shared by the handlers: prefix normalisation, metadata validation,
    treasury ownership, and the scan for a companion Ed25519 verification instruction. */
module Utils {
  import opened Primitives
  import opened Constants
  import opened Errors

  // ---------------------------------------------------------------- characters and UTF-8

  predicate IsAscii(c: char) { c as int < 0x80 }

  /** `char::is_ascii_alphanumeric`. */
  predicate IsAsciiAlphanumeric(c: char) { 'A' <= c <= 'Z' || 'a' <= c <= 'z' || '0' <= c <= '9' }

  /** The characters of a normalized prefix: upper-case ASCII letters and digits. */
  predicate IsUpperAlphanumeric(c: char) { 'A' <= c <= 'Z' || '0' <= c <= '9' }

  /** Number of bytes `c` occupies in UTF-8. */
  function Utf8Width(c: char): nat
  {
    if c as int < 0x80 then 1 else if c as int < 0x800 then 2 else if c as int < 0x1_0000 then 3 else 4
  }

  /** Rust `str::len`: the length of a string in UTF-8 bytes, which is its character count
      exactly when every character is ASCII. */
  function Utf8Len(s: string): (n: nat)
    ensures n >= |s|
    ensures n == |s| <==> forall i :: 0 <= i < |s| ==> IsAscii(s[i])
  {
    if s == [] then 0
    else
      var rest := Utf8Len(s[1..]);
      assert forall i :: 1 <= i < |s| ==> s[i] == s[1..][i - 1];
      Utf8Width(s[0]) + rest
  }

  /** `char::to_ascii_uppercase`: maps a–z to A–Z and leaves every other character alone. */
  function ToAsciiUppercase(c: char): (u: char)
    ensures !('a' <= u <= 'z')
    ensures IsAsciiAlphanumeric(u) <==> IsAsciiAlphanumeric(c)
    ensures IsAscii(u) <==> IsAscii(c)
    ensures IsUpperAlphanumeric(c) ==> u == c
  {
    if 'a' <= c <= 'z' then (c as int - 32) as char else c
  }

  /** `input.chars().map(|c| c.to_ascii_uppercase()).collect::<String>()`. */
  function AsciiUppercase(s: string): string
  {
    seq(|s|, i requires 0 <= i < |s| => ToAsciiUppercase(s[i]))
  }

  // ---------------------------------------------------------------- normalize_prefix

  /** A prefix in normal form: 3 to 12 characters, each an upper-case letter or a digit. */
  predicate IsNormalized(s: string)
  {
    MIN_PREFIX_LEN <= |s| <= MAX_PREFIX_LEN && forall i :: 0 <= i < |s| ==> IsUpperAlphanumeric(s[i])
  }

  /** `normalize_prefix`: the ASCII upper-cased input when it has 3 to 12 characters that are
      all ASCII letters or digits; InvalidPrefixFormat otherwise. */
  function NormalizePrefix(input: string): (r: Result<string>)
    ensures r.Ok? <==>
      MIN_PREFIX_LEN <= |input| <= MAX_PREFIX_LEN &&
      forall i :: 0 <= i < |input| ==> IsAsciiAlphanumeric(input[i])
    ensures r.Ok? ==> |r.value| == |input| && IsNormalized(r.value)
    ensures r.Ok? ==> forall i :: 0 <= i < |input| ==> r.value[i] == ToAsciiUppercase(input[i])
    ensures r.Err? ==> r.error == InvalidPrefixFormat
  {
    var upper := AsciiUppercase(input);
    if Utf8Len(upper) < MIN_PREFIX_LEN || Utf8Len(upper) > MAX_PREFIX_LEN then
      Err(InvalidPrefixFormat)
    else if !(forall c | c in upper :: IsAsciiAlphanumeric(c)) then
      Err(InvalidPrefixFormat)
    else
      assert forall i :: 0 <= i < |upper| ==> upper[i] in upper;
      assert forall i :: 0 <= i < |upper| ==> IsAscii(upper[i]);
      assert forall i :: 0 <= i < |input| ==> IsAsciiAlphanumeric(input[i]) by {
        forall i | 0 <= i < |input| ensures IsAsciiAlphanumeric(input[i]) {
          assert upper[i] == ToAsciiUppercase(input[i]);
        }
      }
      Ok(upper)
  }

  /** A normalized prefix normalizes to itself, and it is the only kind of string that does:
      this is exactly the `prefix == normalized` check of submission. */
  lemma NormalizedIsFixedPoint(s: string)
    ensures NormalizePrefix(s) == Ok(s) <==> IsNormalized(s)
  {
    if IsNormalized(s) {
      var r := NormalizePrefix(s);
      assert r.Ok?;
      assert r.value == s;
    }
  }

  /** normalize_prefix is idempotent. */
  lemma NormalizeIdempotent(s: string)
    requires NormalizePrefix(s).Ok?
    ensures NormalizePrefix(NormalizePrefix(s).value) == NormalizePrefix(s)
  {
    NormalizedIsFixedPoint(NormalizePrefix(s).value);
  }

  /** A well-formed prefix containing a lower-case letter normalizes, but not to itself. */
  lemma LowercaseIsNotNormalized(s: string, k: nat)
    requires NormalizePrefix(s).Ok? && k < |s| && 'a' <= s[k] <= 'z'
    ensures NormalizePrefix(s).value != s
  {
    assert IsUpperAlphanumeric(NormalizePrefix(s).value[k]);
  }

  /** Boundary examples: two and thirteen characters are refused; "myApp1" becomes "MYAPP1". */
  lemma NormalizeExamples()
    ensures NormalizePrefix("AB") == Err(InvalidPrefixFormat)
    ensures NormalizePrefix("ABCDEFGHIJKLM") == Err(InvalidPrefixFormat)
    ensures NormalizePrefix("MY-APP") == Err(InvalidPrefixFormat)
    ensures NormalizePrefix("myApp1") == Ok("MYAPP1")
  {
    assert !IsAsciiAlphanumeric("MY-APP"[2]);
    var r := NormalizePrefix("myApp1");
    assert r.Ok?;
    assert r.value == "MYAPP1";
  }

  // ---------------------------------------------------------------- validate_metadata

  predicate StartsWith(s: string, p: string) { |p| <= |s| && s[..|p|] == p }

  /** The URI schemes the registry accepts. */
  predicate HasAllowedScheme(uri: string) { StartsWith(uri, "https://") || StartsWith(uri, "ipfs://") }

  /** `validate_metadata`: the hash is checked first; then the URI must be at most 255 UTF-8
      bytes and start with `https://` or `ipfs://`. */
  function ValidateMetadata(uri: string, hash: seq<byte>): (r: Result<()>)
    ensures |hash| != 32 ==> r == Err(InvalidMetadataHashLength)
    ensures r.Ok? <==> |hash| == 32 && Utf8Len(uri) <= MAX_URI_LEN && HasAllowedScheme(uri)
    ensures |hash| == 32 && r.Err? ==> r.error == InvalidMetadataUri
  {
    if |hash| != 32 then Err(InvalidMetadataHashLength)
    else if Utf8Len(uri) > MAX_URI_LEN then Err(InvalidMetadataUri)
    else if !HasAllowedScheme(uri) then Err(InvalidMetadataUri)
    else Ok(())
  }

  /** Example: an `ipfs://` URI with a 32-byte hash passes. */
  lemma ValidateMetadataAcceptsIpfs(h: Hash32)
    ensures ValidateMetadata("ipfs://cid", h) == Ok(())
  {
    var uri := "ipfs://cid";
    assert forall i :: 0 <= i < |uri| ==> IsAscii(uri[i]);
    assert uri[..7] == "ipfs://";
  }

  /** Example: a plain `http://` URI is refused. */
  lemma ValidateMetadataRejectsHttp(h: Hash32)
    ensures ValidateMetadata("http://x.io", h) == Err(InvalidMetadataUri)
  {
    var uri := "http://x.io";
    assert uri[4] != "https://"[4];
    assert uri[0] != "ipfs://"[0];
  }

  // ---------------------------------------------------------------- assert_program_owned

  /** `assert_program_owned`: the account's owning program must be `programId`. */
  function AssertProgramOwned(accountOwner: Pubkey, programId: Pubkey): (r: Result<()>)
    ensures r.Ok? <==> accountOwner == programId
    ensures r.Err? ==> r.error == InvalidTreasuryAccount
  {
    if accountOwner != programId then Err(InvalidTreasuryAccount) else Ok(())
  }

  // ---------------------------------------------------------------- verify_ed25519_signature

  /** One entry of the transaction's instructions sysvar. */
  datatype Instruction = Instruction(programId: Pubkey, data: seq<byte>)

  function Window(data: seq<byte>, i: nat): seq<byte>
    requires i + 32 <= |data|
  {
    data[i..i + 32]
  }

  /** `data.windows(32).any(|w| w == key)`. */
  predicate HasWindow(data: seq<byte>, key: Bytes32)
  {
    exists i: nat :: i + 32 <= |data| && Window(data, i) == key
  }

  /** An Ed25519-program instruction whose data holds both the owner key and the hash. */
  predicate Proves(ix: Instruction, owner: Pubkey, hash: Hash32)
  {
    ix.programId == ED25519_PROGRAM_ID && HasWindow(ix.data, owner) && HasWindow(ix.data, hash)
  }

  /** Some instruction of the transaction proves the owner signed the hash. */
  predicate HasSignatureInstruction(instructions: seq<Instruction>, owner: Pubkey, hash: Hash32)
  {
    exists j :: 0 <= j < |instructions| && Proves(instructions[j], owner, hash)
  }

  /** `verify_ed25519_signature`: scans the instructions in order and succeeds at the first
      Ed25519 instruction carrying both the owner key and the hash as 32-byte windows. */
  method VerifyEd25519Signature(instructions: seq<Instruction>, owner: Pubkey, hash: Hash32)
    returns (r: Result<()>)
    ensures r.Ok? <==> HasSignatureInstruction(instructions, owner, hash)
    ensures r.Err? ==> r.error == InvalidEd25519Signature
  {
    var found := false;
    var i: nat := 0;
    while true
      invariant i <= |instructions|
      invariant forall j :: 0 <= j < i ==> !Proves(instructions[j], owner, hash)
      decreases |instructions| - i
    {
      if i >= |instructions| {
        break;  // loading instruction i fails: no more instructions
      }
      var ix := instructions[i];
      if ix.programId == ED25519_PROGRAM_ID {
        if HasWindow(ix.data, owner) && HasWindow(ix.data, hash) {
          assert Proves(instructions[i], owner, hash);
          found := true;
          break;
        }
      }
      i := i + 1;
    }
    if !found {
      return Err(InvalidEd25519Signature);
    }
    return Ok(());
  }

  /** The verdict depends only on which instructions are present, not on their order, so it
      does not matter which matching instruction the scan meets first. */
  lemma {:induction false} SignatureOrderIrrelevant(a: seq<Instruction>, b: seq<Instruction>, owner: Pubkey, hash: Hash32)
    requires multiset(a) == multiset(b)
    ensures HasSignatureInstruction(a, owner, hash) <==> HasSignatureInstruction(b, owner, hash)
  {
    forall x, y: seq<Instruction> | multiset(x) == multiset(y) && HasSignatureInstruction(x, owner, hash)
      ensures HasSignatureInstruction(y, owner, hash)
    {
      var j :| 0 <= j < |x| && Proves(x[j], owner, hash);
      assert x[j] in multiset(y);
      var k :| 0 <= k < |y| && y[k] == x[j];
    }
  }

  /** The three ways the check fails: no instructions, a match only outside the Ed25519
      program, or the key and the hash split across two instructions. */
  lemma SignatureFailureCases(owner: Pubkey, hash: Hash32, other: Pubkey)
    requires other != ED25519_PROGRAM_ID
    ensures !HasSignatureInstruction([], owner, hash)
    ensures !HasSignatureInstruction([Instruction(other, owner + hash)], owner, hash)
    ensures owner != hash ==>
      !HasSignatureInstruction([Instruction(ED25519_PROGRAM_ID, owner), Instruction(ED25519_PROGRAM_ID, hash)], owner, hash)
  {
    if owner != hash {
      var split := [Instruction(ED25519_PROGRAM_ID, owner), Instruction(ED25519_PROGRAM_ID, hash)];
      assert !HasWindow(owner, hash) by {
        forall i: nat | i + 32 <= |owner| ensures Window(owner, i) != hash { assert i == 0; }
      }
      assert !HasWindow(hash, owner) by {
        forall i: nat | i + 32 <= |hash| ensures Window(hash, i) != owner { assert i == 0; }
      }
      assert !Proves(split[0], owner, hash);
      assert !Proves(split[1], owner, hash);
    }
  }

  /** A standard Ed25519 instruction whose data holds the key followed by the message passes. */
  lemma CombinedProofAccepted(owner: Pubkey, hash: Hash32, prefix: seq<byte>, suffix: seq<byte>)
    ensures HasSignatureInstruction([Instruction(ED25519_PROGRAM_ID, prefix + owner + hash + suffix)], owner, hash)
  {
    var data := prefix + owner + hash + suffix;
    assert Window(data, |prefix|) == owner;
    assert Window(data, |prefix| + 32) == hash;
    var ixs := [Instruction(ED25519_PROGRAM_ID, data)];
    assert Proves(ixs[0], owner, hash);
  }
}
