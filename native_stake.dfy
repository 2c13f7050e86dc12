/**
 * The deduplication and summation of `fetchNativeStakedSol`: the stake
 * accounts found as staker and as withdrawer are merged by public key
 * (a later write wins) and the lamports of the distinct accounts are added.
 */
module NativeStake {

  /** One account returned by `getProgramAccounts`: its Base58 key and its lamports. */
  datatype StakeAccount = StakeAccount(pubkey: string, lamports: int)

  /** The map after `map.set` has been called for each account of `accounts`, in order. */
  function Store(m: map<string, int>, accounts: seq<StakeAccount>): (r: map<string, int>)
    ensures r.Keys == m.Keys + set a | a in accounts :: a.pubkey
  {
    if accounts == [] then m
    else
      var last := accounts[|accounts| - 1];
      var r := Store(m, accounts[..|accounts| - 1])[last.pubkey := last.lamports];
      assert accounts == accounts[..|accounts| - 1] + [last];
      r
  }

  /** The merged map of the two queries: withdrawer entries are written last. */
  function Merged(staker: seq<StakeAccount>, withdrawer: seq<StakeAccount>): map<string, int> {
    Store(Store(map[], staker), withdrawer)
  }

  /** The sum of the values of a map, each key counted once. */
  ghost function SumValues(m: map<string, int>): int
    decreases |m|
  {
    if m == map[] then 0
    else
      var k :| k in m;
      m[k] + SumValues(m - {k})
  }

  /** The sum of the lamports of a list of accounts, duplicates included. */
  function SumLamports(accounts: seq<StakeAccount>): int {
    if accounts == [] then 0
    else SumLamports(accounts[..|accounts| - 1]) + accounts[|accounts| - 1].lamports
  }

  /** Any key can be taken out first: the sum does not depend on the order of the keys. */
  lemma {:induction false} SumValuesRemove(m: map<string, int>, k: string)
    requires k in m
    ensures SumValues(m) == m[k] + SumValues(m - {k})
    decreases |m|
  {
    var j :| j in m && SumValues(m) == m[j] + SumValues(m - {j});
    if j != k {
      var rest := m - {j};
      SumValuesRemove(rest, k);
      SumValuesRemove(m - {k}, j);
      assert rest - {k} == (m - {k}) - {j};
    }
  }

  /** Writing a key replaces its old contribution to the sum. */
  lemma SumValuesUpdate(m: map<string, int>, k: string, v: int)
    ensures k in m ==> SumValues(m[k := v]) == SumValues(m) - m[k] + v
    ensures k !in m ==> SumValues(m[k := v]) == SumValues(m) + v
  {
    SumValuesRemove(m[k := v], k);
    assert m[k := v] - {k} == m - {k};
    if k in m {
      SumValuesRemove(m, k);
    } else {
      assert m - {k} == m;
    }
  }

  /** The value stored for a key is that of its last write. */
  lemma {:induction false} StoreLastWins(m: map<string, int>, accounts: seq<StakeAccount>, i: int)
    requires 0 <= i < |accounts|
    requires forall j :: i < j < |accounts| ==> accounts[j].pubkey != accounts[i].pubkey
    ensures Store(m, accounts)[accounts[i].pubkey] == accounts[i].lamports
    decreases |accounts|
  {
    if i < |accounts| - 1 {
      StoreLastWins(m, accounts[..|accounts| - 1], i);
    }
  }

  /** A key that no account writes keeps its old value. */
  lemma {:induction false} StoreUntouched(m: map<string, int>, accounts: seq<StakeAccount>, k: string)
    requires k in m
    requires forall j :: 0 <= j < |accounts| ==> accounts[j].pubkey != k
    ensures Store(m, accounts)[k] == m[k]
    decreases |accounts|
  {
    if accounts != [] {
      StoreUntouched(m, accounts[..|accounts| - 1], k);
    }
  }

  /**
   * For a key in both lists the withdrawer list decides, through its last
   * entry for that key; a key only the staker list has keeps the staker
   * list's last value.
   */
  lemma MergedValue(staker: seq<StakeAccount>, withdrawer: seq<StakeAccount>, k: string)
    ensures forall i :: 0 <= i < |withdrawer| && withdrawer[i].pubkey == k
                        && (forall j :: i < j < |withdrawer| ==> withdrawer[j].pubkey != k) ==>
              Merged(staker, withdrawer)[k] == withdrawer[i].lamports
    ensures (forall j :: 0 <= j < |withdrawer| ==> withdrawer[j].pubkey != k) ==>
              forall i :: 0 <= i < |staker| && staker[i].pubkey == k
                          && (forall j :: i < j < |staker| ==> staker[j].pubkey != k) ==>
                Merged(staker, withdrawer)[k] == staker[i].lamports
  {
    forall i | 0 <= i < |withdrawer| && withdrawer[i].pubkey == k
               && (forall j :: i < j < |withdrawer| ==> withdrawer[j].pubkey != k)
      ensures Merged(staker, withdrawer)[k] == withdrawer[i].lamports
    {
      StoreLastWins(Store(map[], staker), withdrawer, i);
    }
    if forall j :: 0 <= j < |withdrawer| ==> withdrawer[j].pubkey != k {
      forall i | 0 <= i < |staker| && staker[i].pubkey == k
                 && (forall j :: i < j < |staker| ==> staker[j].pubkey != k)
        ensures Merged(staker, withdrawer)[k] == staker[i].lamports
      {
        StoreLastWins(map[], staker, i);
        StoreUntouched(Store(map[], staker), withdrawer, k);
      }
    }
  }

  ghost predicate NonNegative(m: map<string, int>) {
    forall k :: k in m ==> m[k] >= 0
  }

  predicate NonNegativeLamports(accounts: seq<StakeAccount>) {
    forall j :: 0 <= j < |accounts| ==> accounts[j].lamports >= 0
  }

  lemma {:induction false} StoreNonNegative(m: map<string, int>, accounts: seq<StakeAccount>)
    requires NonNegative(m) && NonNegativeLamports(accounts)
    ensures NonNegative(Store(m, accounts))
    decreases |accounts|
  {
    if accounts != [] {
      StoreNonNegative(m, accounts[..|accounts| - 1]);
    }
  }

  /** With non-negative values, writes add at most their own value to the sum. */
  lemma {:induction false} StoreSumBound(m: map<string, int>, accounts: seq<StakeAccount>)
    requires NonNegative(m) && NonNegativeLamports(accounts)
    ensures SumValues(Store(m, accounts)) <= SumValues(m) + SumLamports(accounts)
    decreases |accounts|
  {
    if accounts != [] {
      var init := accounts[..|accounts| - 1];
      var last := accounts[|accounts| - 1];
      StoreSumBound(m, init);
      StoreNonNegative(m, init);
      WriteSumBound(Store(m, init), last.pubkey, last.lamports);
    }
  }

  lemma WriteSumBound(m: map<string, int>, k: string, v: int)
    requires NonNegative(m) && v >= 0
    ensures SumValues(m[k := v]) <= SumValues(m) + v
  {
    SumValuesUpdate(m, k, v);
  }

  lemma {:induction false} SumValuesNonNegative(m: map<string, int>)
    requires NonNegative(m)
    ensures SumValues(m) >= 0
    decreases |m|
  {
    if m != map[] {
      var k :| k in m;
      SumValuesRemove(m, k);
      SumValuesNonNegative(m - {k});
    }
  }

  /**
   * `fetchNativeStakedSol` after both queries have answered: fill the map
   * from the staker list, then from the withdrawer list, then add up its values.
   */
  method TotalStakedLamports(staker: seq<StakeAccount>, withdrawer: seq<StakeAccount>)
    returns (total: int)
    ensures total == SumValues(Merged(staker, withdrawer))
  {
    var m: map<string, int> := map[];
    for i := 0 to |staker|
      invariant m == Store(map[], staker[..i])
    {
      assert staker[..i + 1][..i] == staker[..i];
      m := m[staker[i].pubkey := staker[i].lamports];
    }
    assert staker[..|staker|] == staker;
    ghost var afterStaker := m;
    for i := 0 to |withdrawer|
      invariant m == Store(afterStaker, withdrawer[..i])
    {
      assert withdrawer[..i + 1][..i] == withdrawer[..i];
      m := m[withdrawer[i].pubkey := withdrawer[i].lamports];
    }
    assert withdrawer[..|withdrawer|] == withdrawer;
    total := SumOfValues(m);
  }

  /** `for (const lamports of map.values()) total += lamports`, in any key order. */
  method SumOfValues(m: map<string, int>) returns (total: int)
    ensures total == SumValues(m)
  {
    total := 0;
    var rest := m;
    while rest != map[]
      invariant total + SumValues(rest) == SumValues(m)
      decreases |rest|
    {
      var k :| k in rest;
      SumValuesRemove(rest, k);
      total := total + rest[k];
      rest := rest - {k};
    }
  }

  /** The same account in both answers is counted once. */
  lemma DuplicateAccountExample()
    ensures SumValues(Merged([StakeAccount("A", 5)], [StakeAccount("A", 5)])) == 5
  {
    var m := Merged([StakeAccount("A", 5)], [StakeAccount("A", 5)]);
    assert m == map["A" := 5];
    SumValuesRemove(m, "A");
    assert m - {"A"} == map[];
  }

  /** When the withdrawer answer has a newer balance, that balance is counted. */
  lemma WithdrawerUpdateExample()
    ensures SumValues(Merged([StakeAccount("A", 5)], [StakeAccount("A", 7), StakeAccount("B", 1)])) == 8
  {
    var w := [StakeAccount("A", 7), StakeAccount("B", 1)];
    assert w[..1] == [StakeAccount("A", 7)];
    var m := Merged([StakeAccount("A", 5)], w);
    assert m == map["A" := 7, "B" := 1];
    SumValuesRemove(m, "A");
    assert m - {"A"} == map["B" := 1];
    SumValuesRemove(map["B" := 1], "B");
    assert map["B" := 1] - {"B"} == map[];
  }

  lemma EmptyListsTotalZero()
    ensures SumValues(Merged([], [])) == 0
  {
  }

  /** With non-negative balances the total is between 0 and the sum over both raw lists. */
  lemma TotalBounds(staker: seq<StakeAccount>, withdrawer: seq<StakeAccount>)
    requires NonNegativeLamports(staker) && NonNegativeLamports(withdrawer)
    ensures 0 <= SumValues(Merged(staker, withdrawer)) <= SumLamports(staker) + SumLamports(withdrawer)
  {
    StoreSumBound(map[], staker);
    StoreNonNegative(map[], staker);
    StoreSumBound(Store(map[], staker), withdrawer);
    StoreNonNegative(Store(map[], staker), withdrawer);
    SumValuesNonNegative(Merged(staker, withdrawer));
  }
}
