/**
  The transactions query of the account endpoint:
  `filter_by(account_number=…).order_by(timestamp.desc()).limit(10)`.
*/
module Recent {

  import opened Models

  const Limit := 10

  /** The transactions of one account, in stored order. */
  function OfAccount(txs: seq<Transaction>, number: string): (r: seq<Transaction>)
    ensures forall t :: t in r ==> t.accountNumber == number && t in txs
    ensures forall t :: t in txs && t.accountNumber == number ==> t in r
    ensures multiset(r) <= multiset(txs)
  {
    if txs == [] then []
    else
      var rest := OfAccount(txs[1..], number);
      assert txs == [txs[0]] + txs[1..];
      if txs[0].accountNumber == number then [txs[0]] + rest else rest
  }

  predicate NewestFirst(s: seq<Transaction>) {
    forall i, j :: 0 <= i < j < |s| ==> s[i].timestamp.instant >= s[j].timestamp.instant
  }

  /** Put `t` in front of the first entry that is older than it. */
  function Insert(t: Transaction, s: seq<Transaction>): seq<Transaction> {
    if s == [] || t.timestamp.instant >= s[0].timestamp.instant then [t] + s
    else [s[0]] + Insert(t, s[1..])
  }

  /** `ORDER BY timestamp DESC` (entries with equal timestamps keep stored order). */
  function SortNewestFirst(s: seq<Transaction>): seq<Transaction> {
    if s == [] then [] else Insert(s[0], SortNewestFirst(s[1..]))
  }

  /** No entry of `s` is newer than `x`. */
  predicate NoneNewer(x: Transaction, s: seq<Transaction>) {
    forall k :: 0 <= k < |s| ==> s[k].timestamp.instant <= x.timestamp.instant
  }

  lemma ConsNewestFirst(x: Transaction, s: seq<Transaction>)
    requires NewestFirst(s) && NoneNewer(x, s)
    ensures NewestFirst([x] + s)
  {
    var c := [x] + s;
    forall i, j | 0 <= i < j < |c| ensures c[i].timestamp.instant >= c[j].timestamp.instant {
      assert c[j] == s[j - 1];
      if i > 0 { assert c[i] == s[i - 1]; }
    }
  }

  lemma {:induction false} InsertBound(x: Transaction, t: Transaction, s: seq<Transaction>)
    requires NoneNewer(x, s) && t.timestamp.instant <= x.timestamp.instant
    ensures NoneNewer(x, Insert(t, s))
    decreases |s|
  {
    if s == [] || t.timestamp.instant >= s[0].timestamp.instant {
      assert Insert(t, s) == [t] + s;
    } else {
      InsertBound(x, t, s[1..]);
      assert Insert(t, s) == [s[0]] + Insert(t, s[1..]);
    }
  }

  lemma {:induction false} InsertKeeps(t: Transaction, s: seq<Transaction>)
    requires NewestFirst(s)
    ensures NewestFirst(Insert(t, s))
    ensures multiset(Insert(t, s)) == multiset(s) + multiset{t}
    decreases |s|
  {
    if s == [] || t.timestamp.instant >= s[0].timestamp.instant {
      assert NoneNewer(t, s);
      ConsNewestFirst(t, s);
    } else {
      var rest := s[1..];
      assert s == [s[0]] + rest;
      assert NewestFirst(rest);
      InsertKeeps(t, rest);
      assert NoneNewer(s[0], rest);
      InsertBound(s[0], t, rest);
      ConsNewestFirst(s[0], Insert(t, rest));
    }
  }

  /** The sort orders newest first and keeps exactly the entries it was given. */
  lemma {:induction false} SortCorrect(s: seq<Transaction>)
    ensures NewestFirst(SortNewestFirst(s))
    ensures multiset(SortNewestFirst(s)) == multiset(s)
    decreases |s|
  {
    if s != [] {
      SortCorrect(s[1..]);
      InsertKeeps(s[0], SortNewestFirst(s[1..]));
      assert s == [s[0]] + s[1..];
    }
  }

  /** In a newest-first sequence a prefix holds nothing older than what follows it. */
  lemma PrefixDominates(sorted: seq<Transaction>, k: nat, t: Transaction, r: Transaction)
    requires NewestFirst(sorted) && k <= |sorted|
    requires t in sorted && t !in sorted[..k] && r in sorted[..k]
    ensures r.timestamp.instant >= t.timestamp.instant
  {
    var j :| 0 <= j < |sorted| && sorted[j] == t;
    var i :| 0 <= i < k && sorted[..k][i] == r;
  }

  /** A prefix of a newest-first sequence is newest first. */
  lemma PrefixNewestFirst(s: seq<Transaction>, k: nat)
    requires NewestFirst(s) && k <= |s|
    ensures NewestFirst(s[..k])
  {
    forall i, j | 0 <= i < j < k
      ensures s[..k][i].timestamp.instant >= s[..k][j].timestamp.instant
    {
      assert s[..k][i] == s[i] && s[..k][j] == s[j];
    }
  }

  /** A prefix holds no entry more often than the whole sequence. */
  lemma PrefixMultiset(s: seq<Transaction>, k: nat)
    requires k <= |s|
    ensures multiset(s[..k]) <= multiset(s)
  {
    assert s == s[..k] + s[k..];
  }

  /** The (at most ten) newest transactions of an account, newest first. */
  function RecentOf(txs: seq<Transaction>, number: string): seq<Transaction> {
    var sorted := SortNewestFirst(OfAccount(txs, number));
    if |sorted| <= Limit then sorted else sorted[..Limit]
  }

  /**
    The query returns at most ten transactions, all of the account and each
    no more often than it is stored, newest first, and no transaction of
    the account it leaves out is newer than one it returns.
  */
  lemma RecentCorrect(txs: seq<Transaction>, number: string)
    ensures |RecentOf(txs, number)| <= Limit
    ensures |RecentOf(txs, number)| ==
      if |OfAccount(txs, number)| <= Limit then |OfAccount(txs, number)| else Limit
    ensures NewestFirst(RecentOf(txs, number))
    ensures forall t :: t in RecentOf(txs, number) ==> t in txs && t.accountNumber == number
    ensures multiset(RecentOf(txs, number)) <= multiset(OfAccount(txs, number))
    ensures forall t, r ::
      (t in txs && t.accountNumber == number && t !in RecentOf(txs, number) && r in RecentOf(txs, number))
        ==> r.timestamp.instant >= t.timestamp.instant
  {
    var mine := OfAccount(txs, number);
    var sorted := SortNewestFirst(mine);
    SortCorrect(mine);
    assert |sorted| == |mine| by {
      assert |multiset(sorted)| == |multiset(mine)|;
    }
    var k := if |sorted| <= Limit then |sorted| else Limit;
    var res := RecentOf(txs, number);
    assert res == sorted[..k];
    PrefixMultiset(sorted, k);
    PrefixNewestFirst(sorted, k);
    forall t | t in res ensures t in txs && t.accountNumber == number {
      assert t in multiset(res);
    }
    forall t, r | t in txs && t.accountNumber == number && t !in res && r in res
      ensures r.timestamp.instant >= t.timestamp.instant
    {
      assert t in multiset(sorted);
      PrefixDominates(sorted, k, t, r);
    }
  }
}
