/** The verifier roster singleton and the Vec operations the admin handlers apply to it. */
module VerifiersListState {
  import opened Primitives
  import opened Constants

  /** Ordered roster of verifier keys with its own copy of the admin key.
      (The PDA bump byte is not modelled.) */
  datatype VerifiersList = VerifiersList(
    admin: Pubkey,
    verifiers: seq<Pubkey>,
    createdAt: int,
    updatedAt: int)

  /** `VerifiersList::space`. */
  function Space(maxVerifiers: nat): nat
  {
    DISCRIMINATOR_SIZE +
    PUBKEY_SIZE +                                     // admin
    VEC_PREFIX_SIZE + maxVerifiers * PUBKEY_SIZE +    // verifiers
    U8_SIZE +                                         // bump
    I64_SIZE +                                        // created_at
    I64_SIZE                                          // updated_at
  }

  lemma SpaceClosedForm(n: nat)
    ensures Space(n) == 61 + 32 * n
  {
  }

  /** The roster account allocated at initialisation is 8253 bytes. */
  lemma SpaceAtCapacity()
    ensures Space(MAX_VERIFIERS) == 8253
  {
  }

  lemma SpaceStrictlyIncreasing(m: nat, n: nat)
    requires m < n
    ensures Space(m) < Space(n)
  {
  }

  /** Borsh size of a stored roster. */
  function SerializedSize(v: VerifiersList): nat
  {
    DISCRIMINATOR_SIZE + PUBKEY_SIZE + VEC_PREFIX_SIZE + |v.verifiers| * PUBKEY_SIZE +
    U8_SIZE + I64_SIZE + I64_SIZE
  }

  /** A roster fits the account allocated for 256 verifiers exactly when it has at most 256. */
  lemma FitsIffWithinCapacity(v: VerifiersList)
    ensures SerializedSize(v) <= Space(MAX_VERIFIERS) <==> |v.verifiers| <= MAX_VERIFIERS
  {
  }

  predicate NoDuplicates(s: seq<Pubkey>)
  {
    forall i, j :: 0 <= i < j < |s| ==> s[i] != s[j]
  }

  /** `iter().position(|v| *v == x)`: the index of the first occurrence of `x`. */
  function IndexOf(s: seq<Pubkey>, x: Pubkey): (r: Option<nat>)
    ensures r.None? <==> x !in s
    ensures r.Some? ==> r.value < |s| && s[r.value] == x && x !in s[..r.value]
  {
    if s == [] then None
    else if s[0] == x then Some(0)
    else
      match IndexOf(s[1..], x)
      case None => None
      case Some(k) =>
        assert s[..k + 1] == [s[0]] + s[1..][..k];
        Some(k + 1)
  }

  /** The scan behind `position`: the first index holding `x`, or none. */
  method Position(s: seq<Pubkey>, x: Pubkey) returns (r: Option<nat>)
    ensures r == IndexOf(s, x)
  {
    var i := 0;
    while i < |s|
      invariant 0 <= i <= |s|
      invariant x !in s[..i]
    {
      if s[i] == x {
        assert s[..i + 1][i] == x;
        return Some(i);
      }
      assert s[..i + 1] == s[..i] + [s[i]];
      i := i + 1;
    }
    assert s[..i] == s;
    return None;
  }

  /** `Vec::remove(i)`. */
  function RemoveAt(s: seq<Pubkey>, i: nat): seq<Pubkey>
    requires i < |s|
  {
    s[..i] + s[i + 1..]
  }

  /** Removing the first occurrence shortens the roster by one and keeps the others in order. */
  lemma RemoveFirstShape(s: seq<Pubkey>, x: Pubkey)
    requires x in s
    ensures var k := IndexOf(s, x).value;
      var r := RemoveAt(s, k);
      |r| == |s| - 1 &&
      (forall i :: 0 <= i < k ==> r[i] == s[i]) &&
      (forall i :: k <= i < |r| ==> r[i] == s[i + 1])
  {
  }

  /** Removal takes exactly one copy of the key out of the roster. */
  lemma RemoveFirstMultiset(s: seq<Pubkey>, x: Pubkey)
    requires x in s
    ensures multiset(RemoveAt(s, IndexOf(s, x).value)) == multiset(s) - multiset{x}
  {
    var k := IndexOf(s, x).value;
    RemoveAtMultiset(s, k);
    assert s[k] == x;
  }

  lemma RemoveAtMultiset<T>(s: seq<T>, k: nat)
    requires k < |s|
    ensures multiset(s[..k] + s[k + 1..]) == multiset(s) - multiset{s[k]}
  {
    assert s == s[..k] + [s[k]] + s[k + 1..];
  }

  /** Appending a key that is not yet present keeps the roster free of duplicates. */
  lemma AppendKeepsNoDuplicates(s: seq<Pubkey>, x: Pubkey)
    requires NoDuplicates(s) && x !in s
    ensures NoDuplicates(s + [x])
  {
  }

  /** On a roster without duplicates, removal leaves the key absent and no duplicates behind. */
  lemma RemoveKeepsNoDuplicates(s: seq<Pubkey>, x: Pubkey)
    requires NoDuplicates(s) && x in s
    ensures var r := RemoveAt(s, IndexOf(s, x).value); x !in r && NoDuplicates(r)
  {
    var k := IndexOf(s, x).value;
    var r := RemoveAt(s, k);
    RemoveFirstShape(s, x);
    forall i | 0 <= i < |r| ensures r[i] != x {
      if i < k { assert r[i] == s[i]; } else { assert r[i] == s[i + 1]; }
    }
  }

  /** Appending a new key and then removing it gives back the original roster. */
  lemma AppendThenRemove(s: seq<Pubkey>, x: Pubkey)
    requires x !in s
    ensures IndexOf(s + [x], x) == Some(|s|)
    ensures RemoveAt(s + [x], |s|) == s
  {
  }
}
