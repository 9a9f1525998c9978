/** The commit rule: sort the saved indices in descending order and read position majority - 1. */
module OrderStatistic {
  import opened RaftTypes

  ghost predicate Descending(s: seq<int>) {
    forall i, j :: 0 <= i < j < |s| ==> s[i] >= s[j]
  }

  function InsertDesc(x: int, s: seq<int>): seq<int> {
    if s == [] || x >= s[0] then [x] + s else [s[0]] + InsertDesc(x, s[1..])
  }

  function SortDesc(s: seq<int>): (r: seq<int>)
    ensures |r| == |s|
  {
    if s == [] then [] else
      InsertDescLength(s[0], SortDesc(s[1..]));
      InsertDesc(s[0], SortDesc(s[1..]))
  }

  lemma {:induction false} InsertDescLength(x: int, s: seq<int>)
    ensures |InsertDesc(x, s)| == |s| + 1
  {
    if s != [] && x < s[0] {
      InsertDescLength(x, s[1..]);
    }
  }

  lemma {:induction false} InsertDescPermutes(x: int, s: seq<int>)
    ensures multiset(InsertDesc(x, s)) == multiset([x]) + multiset(s)
  {
    if s != [] && x < s[0] {
      InsertDescPermutes(x, s[1..]);
      assert s == [s[0]] + s[1..];
    }
  }

  lemma {:induction false} InsertDescSorts(x: int, s: seq<int>)
    requires Descending(s)
    ensures Descending(InsertDesc(x, s))
    ensures InsertDesc(x, s)[0] == if s == [] || x >= s[0] then x else s[0]
  {
    if s != [] && x < s[0] {
      InsertDescSorts(x, s[1..]);
      DescendingCons(s[0], InsertDesc(x, s[1..]));
    }
  }

  lemma DescendingCons(x: int, s: seq<int>)
    requires Descending(s) && (s == [] || x >= s[0])
    ensures Descending([x] + s)
  {
  }

  lemma {:induction false} SortDescSorts(s: seq<int>)
    ensures Descending(SortDesc(s))
    ensures multiset(SortDesc(s)) == multiset(s)
  {
    if s != [] {
      SortDescSorts(s[1..]);
      InsertDescSorts(s[0], SortDesc(s[1..]));
      InsertDescPermutes(s[0], SortDesc(s[1..]));
      assert s == [s[0]] + s[1..];
    }
  }

  /** A descending arrangement of a multiset is unique, so any correct sort gives SortDesc. */
  lemma {:induction false} DescendingUnique(a: seq<int>, b: seq<int>)
    requires Descending(a) && Descending(b) && multiset(a) == multiset(b)
    ensures a == b
  {
    assert |multiset(a)| == |a| && |multiset(b)| == |b|;
    if a != [] {
      HeadIsMax(a, b);
      HeadIsMax(b, a);
      TailMultiset(a);
      TailMultiset(b);
      DescendingUnique(a[1..], b[1..]);
      assert a == [a[0]] + a[1..];
      assert b == [b[0]] + b[1..];
    }
  }

  lemma HeadIsMax(a: seq<int>, b: seq<int>)
    requires Descending(a) && multiset(a) == multiset(b) && b != []
    ensures a != [] && b[0] <= a[0]
  {
    assert b[0] in multiset(a);
    assert b[0] in a;
  }

  lemma TailMultiset(a: seq<int>)
    requires a != []
    ensures multiset(a[1..]) == multiset(a) - multiset{a[0]}
  {
    assert a == [a[0]] + a[1..];
  }

  /** How many elements are at least k. */
  ghost function CountGe(s: seq<int>, k: int): (n: nat)
    ensures n <= |s|
  {
    if s == [] then 0 else (if s[0] >= k then 1 else 0) + CountGe(s[1..], k)
  }

  lemma {:induction false} CountGeInsert(x: int, s: seq<int>, k: int)
    ensures CountGe(InsertDesc(x, s), k) == (if x >= k then 1 else 0) + CountGe(s, k)
  {
    if s == [] || x >= s[0] {
      assert ([x] + s)[1..] == s;
    } else {
      CountGeInsert(x, s[1..], k);
      assert InsertDesc(x, s)[1..] == InsertDesc(x, s[1..]);
    }
  }

  lemma {:induction false} CountGeSort(s: seq<int>, k: int)
    ensures CountGe(SortDesc(s), k) == CountGe(s, k)
  {
    if s != [] {
      CountGeSort(s[1..], k);
      CountGeInsert(s[0], SortDesc(s[1..]), k);
    }
  }

  /** In a descending sequence, position m - 1 separates "at least m elements are >= k" from "fewer". */
  lemma {:induction false} CountGeDescending(s: seq<int>, m: nat, k: int)
    requires Descending(s) && 1 <= m <= |s|
    ensures CountGe(s, k) >= m <==> s[m - 1] >= k
  {
    if s[0] < k {
      CountGeNone(s, k);
    } else if m > 1 {
      CountGeDescending(s[1..], m - 1, k);
    }
  }

  lemma {:induction false} CountGeNone(s: seq<int>, k: int)
    requires forall i :: 0 <= i < |s| ==> s[i] < k
    ensures CountGe(s, k) == 0
  {
    if s != [] {
      CountGeNone(s[1..], k);
    }
  }

  /** Values of a per-server map in configuration order. */
  function Values(m: map<Addr, int>, servers: seq<Addr>): (r: seq<int>)
    ensures |r| == |servers|
    ensures forall i :: 0 <= i < |servers| ==> r[i] == At(m, servers[i])
  {
    seq(|servers|, i requires 0 <= i < |servers| => At(m, servers[i]))
  }

  function CommitRule(saved: map<Addr, int>, config: Config): int {
    SortDesc(Values(saved, config))[Majority(config) - 1]
  }

  /** A majority is more than half, no more is asked. */
  lemma MajorityIsMoreThanHalf(config: Config, n: int)
    ensures n >= Majority(config) <==> 2 * n > |config|
  {
  }

  /** The servers whose saved index is at least k. */
  ghost function Holders(saved: map<Addr, int>, servers: seq<Addr>, k: int): set<Addr> {
    set v | v in servers && At(saved, v) >= k
  }

  lemma {:induction false} CountGeIsHolders(saved: map<Addr, int>, servers: seq<Addr>, k: int)
    requires DistinctPorts(servers)
    ensures CountGe(Values(saved, servers), k) == |Holders(saved, servers, k)|
  {
    if servers == [] {
      assert Holders(saved, servers, k) == {};
    } else {
      var v, rest := servers[0], servers[1..];
      CountGeIsHolders(saved, rest, k);
      assert Values(saved, servers)[1..] == Values(saved, rest);
      HoldersCons(saved, servers, k);
    }
  }

  lemma HoldersCons(saved: map<Addr, int>, servers: seq<Addr>, k: int)
    requires servers != [] && DistinctPorts(servers)
    ensures |Holders(saved, servers, k)| ==
            (if At(saved, servers[0]) >= k then 1 else 0) + |Holders(saved, servers[1..], k)|
  {
    var v, rest := servers[0], servers[1..];
    assert forall j :: 0 <= j < |rest| ==> rest[j] == servers[j + 1];
    var old', new' := Holders(saved, rest, k), Holders(saved, servers, k);
    assert v !in old';
    assert servers == [v] + rest;
    if At(saved, v) >= k {
      assert new' == {v} + old';
    } else {
      assert new' == old';
    }
  }

  /** The commit rule yields exactly the greatest k that at least a majority of servers have saved. */
  lemma CommitRuleIsGreatest(saved: map<Addr, int>, config: Config, k: int)
    ensures |Holders(saved, config, k)| >= Majority(config) <==> k <= CommitRule(saved, config)
  {
    var s := Values(saved, config);
    SortDescSorts(s);
    CountGeSort(s, k);
    CountGeDescending(SortDesc(s), Majority(config), k);
    CountGeIsHolders(saved, config, k);
  }

  lemma CommitRuleBounds(saved: map<Addr, int>, config: Config, lo: int, hi: int)
    requires forall v :: v in config ==> lo <= At(saved, v) < hi
    ensures lo <= CommitRule(saved, config) < hi
  {
    var s := Values(saved, config);
    SortDescSorts(s);
    assert CommitRule(saved, config) in multiset(SortDesc(s));
    var i :| 0 <= i < |s| && s[i] == CommitRule(saved, config);
    assert config[i] in config;
  }

  /** Raising saved indices never lowers the commit rule. */
  lemma CommitRuleMonotone(a: map<Addr, int>, b: map<Addr, int>, config: Config)
    requires forall v :: v in config ==> At(a, v) <= At(b, v)
    ensures CommitRule(a, config) <= CommitRule(b, config)
  {
    var k := CommitRule(a, config);
    CommitRuleIsGreatest(a, config, k);
    CommitRuleIsGreatest(b, config, k);
    SubsetSize(Holders(a, config, k), Holders(b, config, k));
  }

  /** With one server ahead, one behind it and nothing saved elsewhere, the rule picks the second where two are a
      majority and nothing otherwise. */
  lemma SecondBest(saved: map<Addr, int>, config: Config, n: Addr, v: Addr)
    requires n in config && v in config && n != v && -1 <= At(saved, v) <= At(saved, n)
    requires forall w :: w in config && w != n && w != v ==> At(saved, w) == -1
    ensures CommitRule(saved, config) == if Majority(config) == 2 then At(saved, v) else -1
  {
    hide CommitRule;
    var k := CommitRule(saved, config);
    TwoServers(config, n, v);
    CommitRuleIsGreatest(saved, config, At(saved, v));
    CommitRuleIsGreatest(saved, config, At(saved, v) + 1);
    CommitRuleIsGreatest(saved, config, -1);
    CommitRuleIsGreatest(saved, config, 0);
    CountGeIsHolders(saved, config, -1);
    CountGeAll(Values(saved, config), -1);
    SubsetSize({n, v}, Holders(saved, config, At(saved, v)));
    SubsetSize(Holders(saved, config, At(saved, v) + 1), {n});
    SubsetSize(Holders(saved, config, 0), {n, v});
  }

  lemma TwoServers(config: Config, n: Addr, v: Addr)
    requires n in config && v in config && n != v
    ensures 2 <= Majority(config) <= |config|
  {
  }

  lemma {:induction false} CountGeAll(s: seq<int>, k: int)
    requires forall i :: 0 <= i < |s| ==> s[i] >= k
    ensures CountGe(s, k) == |s|
  {
    if s != [] {
      CountGeAll(s[1..], k);
    }
  }

  lemma {:induction false} SubsetSize<T>(a: set<T>, b: set<T>)
    requires a <= b
    ensures |a| <= |b|
  {
    if a != {} {
      var x :| x in a;
      SubsetSize(a - {x}, b - {x});
    }
  }
}
