/** How much slower a link is: in every reachable state exactly the product of the factors of the slow-link
    windows that are open on the pair, each counted once. */
module SlowLinks {
  import opened NetModel
  import opened NetFaults
  import opened NetMachine
  import opened NetBook
  import opened NetTimers
  import opened NetInv
  import opened NetRuns

  /** The factor that fault `id` contributes at this point of the timeline. */
  ghost function Share(tl: seq<Event>, faults: seq<FaultRecord>, pair: set<Addr>, id: nat): real
    requires id < |faults|
  {
    if faults[id].kind.KSlow? && faults[id].kind.pair == pair && OpenAt(tl, id) then faults[id].kind.factor else 1.0
  }

  ghost function Product(tl: seq<Event>, faults: seq<FaultRecord>, pair: set<Addr>, n: nat): real
    requires n <= |faults|
  {
    if n == 0 then 1.0 else Product(tl, faults, pair, n - 1) * Share(tl, faults, pair, n - 1)
  }

  /** The list holds exactly the open slow links below n, each once. */
  ghost predicate Lists(slow: seq<Slow>, tl: seq<Event>, faults: seq<FaultRecord>, n: nat) {
    && n <= |faults|
    && (forall i, j :: 0 <= i < j < |slow| ==> slow[i].id != slow[j].id)
    && (forall i :: 0 <= i < |slow| ==> slow[i].id < n && SlowEntry(slow[i], tl, faults))
    && (forall id: nat :: id < n && OpenAt(tl, id) && faults[id].kind.KSlow? ==> HasSlow(slow, id))
  }

  function Drop(slow: seq<Slow>, i: nat): seq<Slow>
    requires i < |slow|
  {
    slow[..i] + slow[i + 1..]
  }

  function Factor(w: Slow, pair: set<Addr>): real {
    if w.pair == pair then w.factor else 1.0
  }

  lemma FactorLast(slow: seq<Slow>, pair: set<Addr>)
    requires slow != []
    ensures SlowFactor(slow, pair) == SlowFactor(slow[..|slow| - 1], pair) * Factor(slow[|slow| - 1], pair)
  {
  }

  /** One entry's factor comes out of the product. */
  lemma {:induction false} FactorOut(slow: seq<Slow>, i: nat, pair: set<Addr>)
    requires i < |slow|
    ensures SlowFactor(slow, pair) == SlowFactor(Drop(slow, i), pair) * Factor(slow[i], pair)
  {
    hide SlowFactor, Factor;
    var last := |slow| - 1;
    FactorLast(slow, pair);
    if i == last {
      assert Drop(slow, i) == slow[..last];
    } else {
      FactorOut(slow[..last], i, pair);
      var rest := Drop(slow, i);
      assert rest[..|rest| - 1] == Drop(slow[..last], i);
      assert rest[|rest| - 1] == slow[last];
      FactorLast(rest, pair);
      Swap(SlowFactor(Drop(slow[..last], i), pair), Factor(slow[i], pair), Factor(slow[last], pair));
    }
  }

  lemma Swap(x: real, y: real, z: real)
    ensures x * y * z == x * z * y
  {
  }

  lemma DropLists(slow: seq<Slow>, tl: seq<Event>, faults: seq<FaultRecord>, n: nat, i: nat)
    requires Lists(slow, tl, faults, n + 1) && i < |slow| && slow[i].id == n
    ensures Lists(Drop(slow, i), tl, faults, n)
  {
    hide OpenAt;
    var rest := Drop(slow, i);
    forall id: nat | id < n && OpenAt(tl, id) && faults[id].kind.KSlow? ensures HasSlow(rest, id) {
      assert HasSlow(slow, id);
      var j :| 0 <= j < |slow| && slow[j].id == id;
      assert rest[if j < i then j else j - 1].id == id;
    }
    forall j | 0 <= j < |rest| ensures rest[j].id < n && SlowEntry(rest[j], tl, faults) {
      var was := if j < i then j else j + 1;
      assert rest[j] == slow[was] && slow[was].id < n + 1;
    }
  }

  lemma ShareOfEntry(slow: seq<Slow>, tl: seq<Event>, faults: seq<FaultRecord>, pair: set<Addr>, n: nat, i: nat)
    requires Lists(slow, tl, faults, n + 1) && i < |slow| && slow[i].id == n
    ensures Share(tl, faults, pair, n) == Factor(slow[i], pair)
  {
    hide OpenAt, HasSlow;
    assert SlowEntry(slow[i], tl, faults);
  }

  lemma NotListed(slow: seq<Slow>, tl: seq<Event>, faults: seq<FaultRecord>, pair: set<Addr>, n: nat)
    requires Lists(slow, tl, faults, n + 1) && !HasSlow(slow, n)
    ensures Lists(slow, tl, faults, n) && Share(tl, faults, pair, n) == 1.0
  {
    hide OpenAt;
    forall i | 0 <= i < |slow| ensures slow[i].id < n {
      assert slow[i].id != n;
    }
  }

  lemma NoneListed(slow: seq<Slow>, tl: seq<Event>, faults: seq<FaultRecord>, pair: set<Addr>)
    requires Lists(slow, tl, faults, 0)
    ensures slow == [] && SlowFactor(slow, pair) == 1.0
  {
    hide SlowEntry, OpenAt, HasSlow;
    assert slow != [] ==> slow[0].id < 0;
  }

  lemma {:induction false} FactorIsProduct(slow: seq<Slow>, tl: seq<Event>, faults: seq<FaultRecord>, pair: set<Addr>, n: nat)
    requires n <= |faults| && Lists(slow, tl, faults, n)
    ensures SlowFactor(slow, pair) == Product(tl, faults, pair, n)
    decreases n
  {
    hide Lists, SlowFactor, Share, Factor;
    if n == 0 {
      NoneListed(slow, tl, faults, pair);
    } else if HasSlow(slow, n - 1) {
      var i :| 0 <= i < |slow| && slow[i].id == n - 1;
      DropLists(slow, tl, faults, n - 1, i);
      FactorOut(slow, i, pair);
      FactorIsProduct(Drop(slow, i), tl, faults, pair, n - 1);
      ShareOfEntry(slow, tl, faults, pair, n - 1, i);
    } else {
      NotListed(slow, tl, faults, pair, n - 1);
      FactorIsProduct(slow, tl, faults, pair, n - 1);
    }
  }

  lemma OpenLinksListed(slow: seq<Slow>, tl: seq<Event>, faults: seq<FaultRecord>)
    requires SlowTrue(slow, tl, faults)
    ensures Lists(slow, tl, faults, |faults|)
  {
    hide OpenAt, HasSlow;
    forall i | 0 <= i < |slow| ensures slow[i].id < |faults| {
      assert SlowEntry(slow[i], tl, faults);
    }
  }

  /** The factor that multiplies the latency of a message between two addresses is, after any run, the
      product over the windows that the timeline shows open on that pair. */
  lemma FactorOfALink(ent: Entropy, acts: seq<Act>, src: Addr, dst: Addr)
    requires EventuallySplits(ent)
    ensures var s := Run(ent, acts); SlowFactor(s.slowLinks, {src, dst}) == Product(s.timeline, s.faults, {src, dst}, |s.faults|)
  {
    hide Run, SlowTrue, SlowFactor, Product, OpenAt;
    var s := Run(ent, acts);
    RunInv(ent, acts);
    assert SlowTrue(s.slowLinks, s.timeline, s.faults) by { LinksAreTrue(s, ent); }
    OpenLinksListed(s.slowLinks, s.timeline, s.faults);
    FactorIsProduct(s.slowLinks, s.timeline, s.faults, {src, dst}, |s.faults|);
  }

  lemma LinksAreTrue(s: Sys, ent: Entropy)
    requires Inv(s, ent)
    ensures SlowTrue(s.slowLinks, s.timeline, s.faults)
  {
    hide Held, Told, Clocks, Follows, Truth, Queues, SlowTrue;
  }
}
