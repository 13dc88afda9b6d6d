/** The sharded mutation sweep (scripts/mutation_sweep.py): the shards partition the mutants, and what
    the shards report adds up to what one unsharded run reports. */
module MutationShards {
  import opened Common
  import opened Baseline

  // ---- the shards ------------------------------------------------------------------------------------------------

  /** The elements at the positions with this remainder. */
  function Pick(ordered: seq<string>, r: nat, count: nat): seq<string>
    requires count > 0
  {
    if ordered == [] then []
    else
      var before := Pick(ordered[..|ordered| - 1], r, count);
      if (|ordered| - 1) % count == r then before + [ordered[|ordered| - 1]] else before
  }

  /** `shard_of`: round robin over the sorted keys, numbered from 1. */
  function ShardOf(keys: seq<string>, index: nat, count: nat): seq<string>
    requires 1 <= index <= count
  {
    Pick(Sort(keys), index - 1, count)
  }

  function AllShards(ordered: seq<string>, n: nat, count: nat): multiset<string>
    requires count > 0
  {
    if n == 0 then multiset{} else AllShards(ordered, n - 1, count) + multiset(Pick(ordered, n - 1, count))
  }

  lemma {:induction false} OneMoreKey(ordered: seq<string>, k: string, n: nat, count: nat)
    requires n <= count && count > 0
    ensures AllShards(ordered + [k], n, count) ==
            AllShards(ordered, n, count) + if |ordered| % count < n then multiset{k} else multiset{}
  {
    if n > 0 {
      OneMoreKey(ordered, k, n - 1, count);
      assert (ordered + [k])[..|ordered|] == ordered;
    }
  }

  lemma {:induction false} NothingToShard(n: nat, count: nat)
    requires count > 0
    ensures AllShards([], n, count) == multiset{}
  {
    if n > 0 {
      NothingToShard(n - 1, count);
    }
  }

  lemma {:induction false} AllPicked(ordered: seq<string>, count: nat)
    requires count > 0
    ensures AllShards(ordered, count, count) == multiset(ordered)
  {
    hide AllShards;
    if ordered == [] {
      NothingToShard(count, count);
    } else {
      var front, last := ordered[..|ordered| - 1], ordered[|ordered| - 1];
      assert ordered == front + [last];
      AllPicked(front, count);
      OneMoreKey(front, last, count, count);
    }
  }

  /** The shards partition the mutants: together they hold every mutant, each as often as it occurs. */
  lemma ShardsPartition(keys: seq<string>, count: nat)
    requires count > 0
    ensures AllShards(Sort(keys), count, count) == multiset(keys)
  {
    AllPicked(Sort(keys), count);
    SortPermutes(keys);
  }

  lemma {:induction false} PickedAt(ordered: seq<string>, r: nat, count: nat, k: string)
    requires count > 0
    ensures k in Pick(ordered, r, count) <==> exists p :: 0 <= p < |ordered| && ordered[p] == k && p % count == r
  {
    if ordered != [] {
      var front, last := ordered[..|ordered| - 1], |ordered| - 1;
      PickedAt(front, r, count, k);
      assert forall p :: 0 <= p < last ==> front[p] == ordered[p];
      if exists p :: 0 <= p < |ordered| && ordered[p] == k && p % count == r {
        var p :| 0 <= p < |ordered| && ordered[p] == k && p % count == r;
        assert p < last ==> front[p] == k;
      }
    }
  }

  // ---- unique keys -------------------------------------------------------------------------------------------------

  lemma {:induction false} OnceEach(keys: seq<string>, k: string)
    requires Distinct(keys)
    ensures multiset(keys)[k] <= 1
  {
    if keys != [] {
      var front := keys[..|keys| - 1];
      OnceEach(front, k);
      assert keys == front + [keys[|keys| - 1]];
      if keys[|keys| - 1] == k {
        assert k !in front;
      }
    }
  }

  lemma TwiceIsTwo(keys: seq<string>, i: nat, j: nat)
    requires i < j < |keys| && keys[i] == keys[j]
    ensures multiset(keys)[keys[i]] >= 2
  {
    assert keys == keys[..j] + keys[j..];
    assert keys[i] in keys[..j] && keys[j] in keys[j..] by { assert keys[..j][i] == keys[i] && keys[j..][0] == keys[j]; }
    assert multiset(keys) == multiset(keys[..j]) + multiset(keys[j..]);
  }

  lemma SortDistinct(keys: seq<string>)
    requires Distinct(keys)
    ensures Distinct(Sort(keys))
  {
    var s := Sort(keys);
    SortPermutes(keys);
    forall i, j | 0 <= i < j < |s| ensures s[i] != s[j] {
      if s[i] == s[j] {
        TwiceIsTwo(s, i, j);
        OnceEach(keys, s[i]);
      }
    }
  }

  /** With unique keys each mutant is in exactly one shard. */
  lemma InOneShard(keys: seq<string>, k: string, i: nat, j: nat, count: nat)
    requires Distinct(keys) && 1 <= i <= count && 1 <= j <= count
    requires k in ShardOf(keys, i, count) && k in ShardOf(keys, j, count)
    ensures i == j
  {
    SortDistinct(keys);
    PickedAt(Sort(keys), i - 1, count, k);
    PickedAt(Sort(keys), j - 1, count, k);
  }

  lemma InSomeShard(keys: seq<string>, k: string, count: nat) returns (i: nat)
    requires count > 0 && k in keys
    ensures 1 <= i <= count && k in ShardOf(keys, i, count)
  {
    SortMembers(keys);
    var p :| 0 <= p < |Sort(keys)| && Sort(keys)[p] == k;
    i := p % count + 1;
    PickedAt(Sort(keys), i - 1, count, k);
  }

  /** The keys that come before this one. */
  function Smaller(keys: seq<string>, k: string): set<string> {
    set x | x in keys && Less(x, k)
  }

  /** In the sorted list a key stands behind exactly the keys smaller than it. */
  lemma PlaceIsRank(keys: seq<string>, p: nat)
    requires Distinct(keys) && p < |Sort(keys)|
    ensures |Smaller(keys, Sort(keys)[p])| == p
  {
    hide Sort, Less;
    var s := Sort(keys);
    SortOrdered(keys);
    SortDistinct(keys);
    SortMembers(keys);
    forall x ensures x in Smaller(keys, s[p]) <==> x in s[..p] {
      if x in s[..p] {
        var i :| 0 <= i < p && s[i] == x;
        LessConnected(x, s[p]);
        assert s[i] in s;
      }
      if x in keys && Less(x, s[p]) {
        assert x in s;
        var i :| 0 <= i < |s| && s[i] == x;
        LessConnected(x, s[p]);
        assert s[..p][i] == x;
      }
    }
    assert Smaller(keys, s[p]) == Elements(s[..p]);
    DistinctSize(s[..p]);
  }

  /** With unique keys a mutant's shard is the number of smaller keys, round robin. */
  lemma ShardIsRank(keys: seq<string>, k: string, i: nat, count: nat)
    requires Distinct(keys) && k in keys && 1 <= i <= count
    ensures k in ShardOf(keys, i, count) <==> |Smaller(keys, k)| % count == i - 1
  {
    hide Sort, Less;
    var s := Sort(keys);
    SortMembers(keys);
    PickedAt(s, i - 1, count, k);
    var p :| 0 <= p < |s| && s[p] == k;
    PlaceIsRank(keys, p);
    forall q | 0 <= q < |s| && s[q] == k ensures q == p {
      PlaceIsRank(keys, q);
    }
  }

  // ---- the verdict ------------------------------------------------------------------------------------------------------

  lemma SmallerOf(x: string, y: string, m: string)
    requires !Less(x, m) && x != y
    ensures !Less(x, if Less(y, m) then y else m)
  {
    if Less(x, y) && Less(y, m) {
      LessTransitive(x, y, m);
    }
  }

  ghost predicate IsLeast(s: set<string>, m: string) {
    m in s && forall x :: x in s ==> !Less(x, m)
  }

  lemma {:induction false} LeastKey(s: set<string>) returns (m: string)
    requires s != {}
    ensures IsLeast(s, m)
  {
    hide Less;
    var y := Missing({}, s);
    LessConnected(y, y);
    m := y;
    if s != {y} {
      var rest := s - {y};
      var n := LeastKey(rest);
      m := if Less(y, n) then y else n;
      forall x | x in s ensures !Less(x, m) {
        if x != y {
          assert x in rest;
          SmallerOf(x, y, n);
        }
      }
    }
  }

  lemma LeastKeyExists(s: set<string>)
    requires s != {}
    ensures exists m :: IsLeast(s, m)
  {
    var m := LeastKey(s);
  }

  /** `sorted` of a set. */
  ghost function Ascending(s: set<string>): (r: seq<string>)
    ensures |r| == |s| && forall x :: x in r <==> x in s
  {
    if s == {} then []
    else
      LeastKeyExists(s);
      var m :| IsLeast(s, m);
      [m] + Ascending(s - {m})
  }

  lemma {:induction false} AscendingOrdered(s: set<string>)
    ensures Ordered(Ascending(s)) && Distinct(Ascending(s))
  {
    hide Less;
    if s != {} {
      var r := Ascending(s);
      var m := r[0];
      assert r[1..] == Ascending(s - {m});
      AscendingOrdered(s - {m});
      forall i, j | 0 <= i < j < |r| ensures !Less(r[j], r[i]) && r[i] != r[j] {
        assert r[j] == r[1..][j - 1];
        if i == 0 {
          assert r[j] in r[1..];
        } else {
          assert r[i] == r[1..][i - 1];
        }
      }
    }
  }

  /** New survivors, baselined mutants that no longer survive, baselined keys that no longer exist. */
  datatype Verdict = Verdict(added: seq<string>, gone: seq<string>, stale: seq<string>)

  /** `compare`. */
  ghost function Compare(survivors: seq<string>, baseline: set<string>, shard: set<string>, all: set<string>): Verdict {
    Verdict(Ascending(Elements(survivors) - baseline),
            Ascending(set k | k in baseline && k in shard && k !in survivors),
            Ascending(set k | k in baseline && k !in all))
  }

  /** Each list is reported in order, no key twice, and says exactly what its name says. */
  lemma VerdictMeans(survivors: seq<string>, baseline: set<string>, shard: set<string>, all: set<string>)
    ensures var v := Compare(survivors, baseline, shard, all);
            && Ordered(v.added) && Distinct(v.added) && (forall k :: k in v.added <==> k in survivors && k !in baseline)
            && Ordered(v.gone) && Distinct(v.gone) && (forall k :: k in v.gone <==> k in baseline && k in shard && k !in survivors)
            && Ordered(v.stale) && Distinct(v.stale) && (forall k :: k in v.stale <==> k in baseline && k !in all)
  {
    hide Ordered, Distinct, Ascending;
    AscendingOrdered(Elements(survivors) - baseline);
    AscendingOrdered(set k | k in baseline && k in shard && k !in survivors);
    AscendingOrdered(set k | k in baseline && k !in all);
  }

  predicate Passes(v: Verdict) { v.added == [] && v.gone == [] && v.stale == [] }

  /** What each shard found: some of its own mutants. */
  ghost predicate FromShards(keys: seq<string>, found: seq<seq<string>>) {
    forall i, k :: 0 <= i < |found| && k in found[i] ==> k in ShardOf(keys, i + 1, |found|)
  }

  ghost predicate FoundSomewhere(found: seq<seq<string>>, k: string) {
    exists i :: 0 <= i < |found| && k in found[i]
  }

  ghost function OfShard(keys: seq<string>, baseline: set<string>, found: seq<seq<string>>, i: nat): Verdict
    requires i < |found|
  {
    Compare(found[i], baseline, Elements(ShardOf(keys, i + 1, |found|)), Elements(keys))
  }

  ghost function Unsharded(keys: seq<string>, baseline: set<string>, survivors: seq<string>): Verdict {
    Compare(survivors, baseline, Elements(keys), Elements(keys))
  }

  ghost predicate SomeAdded(keys: seq<string>, baseline: set<string>, found: seq<seq<string>>, k: string) {
    exists i :: 0 <= i < |found| && k in OfShard(keys, baseline, found, i).added
  }

  ghost predicate SomeGone(keys: seq<string>, baseline: set<string>, found: seq<seq<string>>, k: string) {
    exists i :: 0 <= i < |found| && k in OfShard(keys, baseline, found, i).gone
  }

  lemma AddedAddsUp(keys: seq<string>, baseline: set<string>, found: seq<seq<string>>, survivors: seq<string>, k: string)
    requires forall x :: x in survivors <==> FoundSomewhere(found, x)
    ensures k in Unsharded(keys, baseline, survivors).added <==> SomeAdded(keys, baseline, found, k)
  {
    if k in Unsharded(keys, baseline, survivors).added {
      assert FoundSomewhere(found, k);
      var i :| 0 <= i < |found| && k in found[i];
      assert k in OfShard(keys, baseline, found, i).added;
    }
    if SomeAdded(keys, baseline, found, k) {
      var i :| 0 <= i < |found| && k in OfShard(keys, baseline, found, i).added;
      assert k in found[i];
      assert FoundSomewhere(found, k);
    }
  }

  lemma GoneFromOne(keys: seq<string>, baseline: set<string>, found: seq<seq<string>>, survivors: seq<string>, k: string)
    requires found != [] && forall x :: x in survivors <==> FoundSomewhere(found, x)
    requires k in Unsharded(keys, baseline, survivors).gone
    ensures SomeGone(keys, baseline, found, k)
  {
    hide ShardOf;
    var i := InSomeShard(keys, k, |found|);
    assert !FoundSomewhere(found, k);
    assert k !in found[i - 1];
    assert k in OfShard(keys, baseline, found, i - 1).gone;
  }

  /** A mutant missing from the survivors of its shard is in no other shard's. */
  lemma NotFoundElsewhere(keys: seq<string>, found: seq<seq<string>>, i: nat, k: string)
    requires Distinct(keys) && FromShards(keys, found) && i < |found| && k in ShardOf(keys, i + 1, |found|) && k !in found[i]
    ensures !FoundSomewhere(found, k)
  {
    hide ShardOf, Distinct;
    if FoundSomewhere(found, k) {
      var j :| 0 <= j < |found| && k in found[j];
      InOneShard(keys, k, i + 1, j + 1, |found|);
    }
  }

  lemma GoneAddsUp(keys: seq<string>, baseline: set<string>, found: seq<seq<string>>, survivors: seq<string>, k: string)
    requires Distinct(keys) && found != [] && FromShards(keys, found) && forall x :: x in survivors <==> FoundSomewhere(found, x)
    ensures k in Unsharded(keys, baseline, survivors).gone <==> SomeGone(keys, baseline, found, k)
  {
    hide ShardOf, Distinct, FromShards, FoundSomewhere, Ascending;
    if k in Unsharded(keys, baseline, survivors).gone {
      GoneFromOne(keys, baseline, found, survivors, k);
    }
    if SomeGone(keys, baseline, found, k) {
      var i :| 0 <= i < |found| && k in OfShard(keys, baseline, found, i).gone;
      assert k in ShardOf(keys, i + 1, |found|) && k !in found[i];
      NotFoundElsewhere(keys, found, i, k);
      ShardMembers(keys, k, i + 1, |found|);
    }
  }

  lemma ShardMembers(keys: seq<string>, k: string, i: nat, count: nat)
    requires 1 <= i <= count && k in ShardOf(keys, i, count)
    ensures k in keys
  {
    PickedAt(Sort(keys), i - 1, count, k);
    SortMembers(keys);
  }

  /** The union of what the shards report is what one unsharded run reports, list by list, given that
      mutant keys are unique. Every shard reports the same stale keys. */
  lemma ShardsAddUp(keys: seq<string>, baseline: set<string>, found: seq<seq<string>>, survivors: seq<string>)
    requires Distinct(keys) && found != [] && FromShards(keys, found) && forall x :: x in survivors <==> FoundSomewhere(found, x)
    ensures forall k :: k in Unsharded(keys, baseline, survivors).added <==> SomeAdded(keys, baseline, found, k)
    ensures forall k :: k in Unsharded(keys, baseline, survivors).gone <==> SomeGone(keys, baseline, found, k)
    ensures forall i :: 0 <= i < |found| ==> OfShard(keys, baseline, found, i).stale == Unsharded(keys, baseline, survivors).stale
  {
    forall k ensures k in Unsharded(keys, baseline, survivors).added <==> SomeAdded(keys, baseline, found, k) {
      AddedAddsUp(keys, baseline, found, survivors, k);
    }
    forall k ensures k in Unsharded(keys, baseline, survivors).gone <==> SomeGone(keys, baseline, found, k) {
      GoneAddsUp(keys, baseline, found, survivors, k);
    }
  }

  /** So the gate passes unsharded exactly if every shard passes. */
  lemma SameVerdict(keys: seq<string>, baseline: set<string>, found: seq<seq<string>>, survivors: seq<string>)
    requires Distinct(keys) && found != [] && FromShards(keys, found) && forall x :: x in survivors <==> FoundSomewhere(found, x)
    ensures Passes(Unsharded(keys, baseline, survivors)) <==> forall i :: 0 <= i < |found| ==> Passes(OfShard(keys, baseline, found, i))
  {
    hide Unsharded, OfShard;
    ShardsAddUp(keys, baseline, found, survivors);
    var whole := Unsharded(keys, baseline, survivors);
    if Passes(whole) {
      forall i | 0 <= i < |found| ensures Passes(OfShard(keys, baseline, found, i)) {
        var v := OfShard(keys, baseline, found, i);
        forall k ensures k !in v.added && k !in v.gone {
          assert !SomeAdded(keys, baseline, found, k) && !SomeGone(keys, baseline, found, k);
        }
        HasAHead(v.added);
        HasAHead(v.gone);
      }
    }
    if forall i :: 0 <= i < |found| ==> Passes(OfShard(keys, baseline, found, i)) {
      assert Passes(OfShard(keys, baseline, found, 0));
      forall k ensures k !in whole.added && k !in whole.gone {
        assert !SomeAdded(keys, baseline, found, k) && !SomeGone(keys, baseline, found, k);
      }
      HasAHead(whole.added);
      HasAHead(whole.gone);
    }
  }

  lemma HasAHead(s: seq<string>)
    ensures s == [] || s[0] in s
  {
  }

  /** Without unique keys it fails: two mutants with one key, one of which survives. The unsharded run
      is content; the shard of the other reports the key gone. */
  lemma DuplicateKeysDisagree()
    ensures var keys := ["a", "a"]; var found := [["a"], []]; var baseline := {"a"};
            && FromShards(keys, found) && (forall x :: x in ["a"] <==> FoundSomewhere(found, x))
            && Passes(Unsharded(keys, baseline, ["a"])) && "a" in OfShard(keys, baseline, found, 1).gone
  {
    var keys := ["a", "a"];
    var found: seq<seq<string>> := [["a"], []];
    TwoShards();
    hide ShardOf;
    assert found[0] == ["a"] && found[1] == [];
    assert forall x :: x in ["a"] <==> FoundSomewhere(found, x) by {
      assert "a" in found[0];
      assert FoundSomewhere(found, "a");
    }
    assert Elements(["a"]) - {"a"} == {};
    assert (set k | k in {"a"} && k in Elements(keys) && k !in ["a"]) == {};
    assert "a" in Elements(keys);
    assert (set k | k in {"a"} && k !in Elements(keys)) == {};
  }

  lemma TwoShards()
    ensures ShardOf(["a", "a"], 1, 2) == ["a"] && ShardOf(["a", "a"], 2, 2) == ["a"]
  {
    SortTwo("a");
    hide Sort;
    assert ["a", "a"][..1] == ["a"] && ["a"][..0] == [];
    assert Pick(["a"], 0, 2) == ["a"] && Pick(["a"], 1, 2) == [];
  }

  lemma SortTwo(k: string)
    ensures Sort([k, k]) == [k, k]
  {
    assert [k, k][..1] == [k] && [k][..0] == [];
    assert Sort([k]) == [k];
    LessConnected(k, k);
  }
}
