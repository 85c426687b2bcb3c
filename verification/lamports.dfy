/** Lamport balances of the accounts an instruction touches, and the two ways the handlers move
    lamports: a system-program transfer and direct debit/credit of program-owned accounts. */
module Lamports {
  import opened Primitives

  /** Lamports held by each account; an account that is absent holds none. */
  type Balances = map<Pubkey, nat>

  function Balance(b: Balances, k: Pubkey): nat
  {
    if k in b then b[k] else 0
  }

  /** Take `amount` lamports out of `k`. */
  function Debit(b: Balances, k: Pubkey, amount: nat): Balances
    requires amount <= Balance(b, k)
  {
    b[k := Balance(b, k) - amount]
  }

  /** Put `amount` lamports into `k`. */
  function Credit(b: Balances, k: Pubkey, amount: nat): Balances
  {
    b[k := Balance(b, k) + amount]
  }

  /** Debit `from`, then credit `to` (so a transfer to oneself changes nothing). */
  function Transfer(b: Balances, from: Pubkey, to: Pubkey, amount: nat): (r: Balances)
    requires amount <= Balance(b, from)
    ensures from != to ==> Balance(r, from) == Balance(b, from) - amount
    ensures from != to ==> Balance(r, to) == Balance(b, to) + amount
    ensures from == to ==> forall k :: Balance(r, k) == Balance(b, k)
    ensures forall k :: k != from && k != to ==> Balance(r, k) == Balance(b, k)
  {
    Credit(Debit(b, from, amount), to, amount)
  }

  /** Some account of a non-empty map, the one `Total` sums first. */
  ghost function Pick(b: Balances): (k: Pubkey)
    requires |b| > 0
    ensures k in b
  {
    var k :| k in b; k
  }

  /** Total lamports held by all accounts in the map. */
  ghost function Total(b: Balances): nat
    decreases |b|
  {
    if |b| == 0 then 0 else b[Pick(b)] + Total(b - {Pick(b)})
  }

  /** Any key can be taken out first: the total does not depend on the order of summation. */
  lemma {:induction false} TotalRemove(b: Balances, k: Pubkey)
    requires k in b
    ensures Total(b) == b[k] + Total(b - {k})
    decreases |b|
  {
    var j := Pick(b);
    if j != k {
      var bj, bk := b - {j}, b - {k};
      assert |bj| == |b| - 1 && k in bj && bj[k] == b[k];
      assert |bk| == |b| - 1 && j in bk && bk[j] == b[j];
      TotalRemove(bj, k);
      TotalRemove(bk, j);
      assert bj - {k} == bk - {j};
    }
  }

  /** Overwriting a balance changes the total by the difference. */
  lemma TotalOverwrite(b: Balances, k: Pubkey, v: nat)
    requires k in b
    ensures Total(b[k := v]) + b[k] == Total(b) + v
  {
    var b' := b[k := v];
    assert b'[k] == v;
    TotalRemove(b', k);
    TotalRemove(b, k);
    assert b' - {k} == b - {k};
  }

  /** Opening a new balance adds it to the total. */
  lemma TotalInsert(b: Balances, k: Pubkey, v: nat)
    requires k !in b
    ensures Total(b[k := v]) == Total(b) + v
  {
    var b' := b[k := v];
    assert b'[k] == v;
    TotalRemove(b', k);
    assert b' - {k} == b;
  }

  lemma DebitTotal(b: Balances, k: Pubkey, amount: nat)
    requires amount <= Balance(b, k)
    ensures Total(Debit(b, k, amount)) + amount == Total(b)
  {
    if k in b {
      var v := b[k] - amount;
      assert Debit(b, k, amount) == b[k := v];
      TotalOverwrite(b, k, v);
    } else {
      assert Debit(b, k, amount) == b[k := 0];
      TotalInsert(b, k, 0);
    }
  }

  lemma CreditTotal(b: Balances, k: Pubkey, amount: nat)
    ensures Total(Credit(b, k, amount)) == Total(b) + amount
  {
    if k in b {
      TotalOverwrite(b, k, b[k] + amount);
    } else {
      TotalInsert(b, k, amount);
    }
  }

  /** A transfer conserves the total number of lamports. */
  lemma TransferConserves(b: Balances, from: Pubkey, to: Pubkey, amount: nat)
    requires amount <= Balance(b, from)
    ensures Total(Transfer(b, from, to, amount)) == Total(b)
  {
    DebitTotal(b, from, amount);
    CreditTotal(Debit(b, from, amount), to, amount);
  }
}
