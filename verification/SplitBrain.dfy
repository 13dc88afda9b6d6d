/** The demo's toggle: dropping the single-vote rule breaks election safety, and only that does. */
module SplitBrain {
  import opened Common
  import opened RaftNodes
  import opened Election

  /** The list of nodes the demo's `always` check looks at, in any order. */
  ghost predicate Snapshot(c: Cluster, nodes: seq<Claim>) {
    forall i :: 0 <= i < |nodes| ==> nodes[i].addr in c.nodes && nodes[i].state == c.nodes[nodes[i].addr]
  }

  /** The demo's per-step check never fails in a run of the correct protocol. */
  lemma CheckAlwaysPasses(cfg: Config, events: seq<Event>, nodes: seq<Claim>)
    requires WellFormed(cfg) && !cfg.buggy
    requires Snapshot(Run(cfg, events), nodes)
    ensures OneLeaderPerTerm(nodes)
  {
    var c := Run(cfg, events);
    RunInv(cfg, events);
    InvSafe(cfg, c);
    forall i | 0 <= i < |nodes|
      ensures nodes[i] in c.past
    {
      assert nodes[i] == Claim(nodes[i].addr, c.nodes[nodes[i].addr]);
    }
  }

  // ---- a split brain for every buggy cluster of two or more nodes ----------------------------------

  lemma RunSnoc(cfg: Config, events: seq<Event>, e: Event)
    ensures Run(cfg, events + [e]) == Happen(cfg, Run(cfg, events), e)
  {
    assert (events + [e])[..|events + [e]| - 1] == events;
  }

  lemma RequestInBroadcast(cfg: Config, a: Addr, term: int, v: Addr)
    requires WellFormed(cfg) && a in cfg.addrs && v in cfg.addrs && v != a
    ensures Packet(a, v, RequestVote(term, a)) in Broadcast(a, cfg.peers[a], RequestVote(term, a))
  {
    assert v in Elements(cfg.peers[a]);
    var i :| 0 <= i < |cfg.peers[a]| && cfg.peers[a][i] == v;
    assert Broadcast(a, cfg.peers[a], RequestVote(term, a))[i] == Packet(a, v, RequestVote(term, a));
  }

  ghost predicate Standing(s: NodeState, a: Addr) {
    s.term == 1 && s.role == Candidate && s.votes == {a}
  }

  ghost predicate Asked(cfg: Config, c: Cluster, a: Addr) {
    forall v :: v in cfg.addrs && v != a ==> Packet(a, v, RequestVote(1, a)) in c.net
  }

  ghost predicate Granted(c: Cluster, v: Addr, a: Addr) {
    Packet(v, a, Vote(1, v, true)) in c.net
  }

  /** Both candidates stand in term 1. The nodes in `forA` have voted for a, those in `forB` for b;
      a node in neither has not been reached yet. */
  ghost predicate Polling(cfg: Config, c: Cluster, a: Addr, b: Addr, forA: set<Addr>, forB: set<Addr>) {
    && c.nodes.Keys == cfg.addrs && a in cfg.addrs && b in cfg.addrs
    && Standing(c.nodes[a], a) && Standing(c.nodes[b], b)
    && Asked(cfg, c, a) && Asked(cfg, c, b)
    && (forall v :: v in cfg.addrs && v != a && v != b ==>
          c.nodes[v] == InitialNode || (c.nodes[v].term == 1 && c.nodes[v].role == Follower))
    && (forall v :: v in forA && v != a ==> Granted(c, v, a))
    && (forall v :: v in forB && v != b ==> Granted(c, v, b))
  }

  lemma BothStand(cfg: Config, a: Addr, b: Addr) returns (events: seq<Event>)
    requires WellFormed(cfg) && a in cfg.addrs && b in cfg.addrs && a != b
    ensures Polling(cfg, Run(cfg, events), a, b, {}, {})
  {
    var one := [] + [Timeout(a)];
    events := one + [Timeout(b)];
    RunSnoc(cfg, [], Timeout(a));
    RunSnoc(cfg, one, Timeout(b));
    assert Run(cfg, []) == Start(cfg);
    forall v | v in cfg.addrs && v != a ensures Packet(a, v, RequestVote(1, a)) in Run(cfg, events).net {
      RequestInBroadcast(cfg, a, 1, v);
    }
    forall v | v in cfg.addrs && v != b ensures Packet(b, v, RequestVote(1, b)) in Run(cfg, events).net {
      RequestInBroadcast(cfg, b, 1, v);
    }
  }

  /** Delivering `from`'s request to a node that does not lead makes a buggy node vote for `from`. */
  lemma PollOne(cfg: Config, c: Cluster, from: Addr, v: Addr)
    requires WellFormed(cfg) && cfg.buggy && c.nodes.Keys == cfg.addrs && v in cfg.addrs
    requires Packet(from, v, RequestVote(1, from)) in c.net
    requires c.nodes[v].term <= 1 && c.nodes[v].role != Leader
    ensures var d := Happen(cfg, c, Deliver(Packet(from, v, RequestVote(1, from))));
            && Granted(d, v, from) && c.net <= d.net
            && (exists s :: d.nodes == c.nodes[v := s] && s.term == 1 && s.votes == (if c.nodes[v].term == 1 then c.nodes[v].votes else {}) &&
                            s.role == (if c.nodes[v].term == 1 then c.nodes[v].role else Follower))
  {
    var p := Packet(from, v, RequestVote(1, from));
    var d := Happen(cfg, c, Deliver(p));
    assert HandleSends(c.nodes[v], v, cfg.peers[v], cfg.buggy, from, p.msg) == [Packet(v, from, Vote(1, v, true))];
    assert d.nodes == c.nodes[v := d.nodes[v]];
  }

  lemma PollFor(cfg: Config, events: seq<Event>, a: Addr, b: Addr, forA: set<Addr>, forB: set<Addr>, v: Addr)
    returns (more: seq<Event>)
    requires WellFormed(cfg) && cfg.buggy && a != b && v in cfg.addrs
    requires Polling(cfg, Run(cfg, events), a, b, forA, forB)
    ensures Polling(cfg, Run(cfg, more), a, b, forA + {v}, forB)
  {
    more := events;
    if v != a {
      var c := Run(cfg, events);
      var p := Packet(a, v, RequestVote(1, a));
      PollOne(cfg, c, a, v);
      RunSnoc(cfg, events, Deliver(p));
      more := events + [Deliver(p)];
      assert Asked(cfg, Run(cfg, more), a) && Asked(cfg, Run(cfg, more), b);
    }
  }

  lemma PollAll(cfg: Config, a: Addr, b: Addr) returns (events: seq<Event>)
    requires WellFormed(cfg) && cfg.buggy && a in cfg.addrs && b in cfg.addrs && a != b
    ensures Polling(cfg, Run(cfg, events), a, b, cfg.addrs, cfg.addrs)
  {
    hide Run, WellFormed, Standing, Asked;
    events := BothStand(cfg, a, b);
    var polled := {};
    while polled != cfg.addrs
      invariant polled <= cfg.addrs && Polling(cfg, Run(cfg, events), a, b, polled, polled)
      decreases |cfg.addrs - polled|
    {
      var v := Missing(polled, cfg.addrs);
      events := PollFor(cfg, events, a, b, polled, polled, v);
      assert Polling(cfg, Run(cfg, events), b, a, polled, polled + {v});
      events := PollFor(cfg, events, b, a, polled, polled + {v}, v);
      assert cfg.addrs - (polled + {v}) == (cfg.addrs - polled) - {v};
      polled := polled + {v};
    }
  }

  /** `a` is still counting: it has counted exactly `counted`, which is not a majority yet. */
  ghost predicate Counting(cfg: Config, c: Cluster, a: Addr, counted: set<Addr>) {
    && c.nodes.Keys == cfg.addrs && a in counted && counted <= cfg.addrs
    && c.nodes[a].term == 1 && c.nodes[a].role == Candidate && c.nodes[a].votes == counted
    && |counted| <= |cfg.addrs| / 2
    && forall v :: v in cfg.addrs && v != a ==> Granted(c, v, a)
  }

  /** Nothing but node `a` has changed, and what was sent and what has been stays on record. */
  ghost predicate OnlyMoved(c: Cluster, d: Cluster, a: Addr) {
    && d.nodes.Keys == c.nodes.Keys && c.net <= d.net && c.past <= d.past
    && forall v :: v in c.nodes && v != a ==> d.nodes[v] == c.nodes[v]
  }

  ghost predicate Leads(c: Cluster, a: Addr) {
    a in c.nodes && c.nodes[a].role == Leader && c.nodes[a].term == 1 && Claim(a, c.nodes[a]) in c.past
  }

  /** One more granted vote is counted: a leader if that makes a majority. */
  lemma CountOne(cfg: Config, c: Cluster, a: Addr, counted: set<Addr>, v: Addr)
    requires WellFormed(cfg) && a in cfg.addrs && Counting(cfg, c, a, counted) && v in cfg.addrs - counted
    ensures var d := Happen(cfg, c, Deliver(Packet(v, a, Vote(1, v, true))));
            && OnlyMoved(c, d, a)
            && if |counted + {v}| <= |cfg.addrs| / 2 then Counting(cfg, d, a, counted + {v}) else Leads(d, a)
  {
    PeerCount(cfg, a);
    assert Granted(c, v, a);
  }

  /** Delivering the votes one by one makes the candidate a leader of term 1 and changes no other node. */
  lemma CountVotes(cfg: Config, events: seq<Event>, a: Addr, counted: set<Addr>) returns (more: seq<Event>)
    requires WellFormed(cfg) && a in cfg.addrs && Counting(cfg, Run(cfg, events), a, counted)
    ensures OnlyMoved(Run(cfg, events), Run(cfg, more), a) && Leads(Run(cfg, more), a)
    decreases |cfg.addrs - counted|
  {
    hide Run, Happen, WellFormed, Leads;
    assert |cfg.addrs - {a}| == |cfg.addrs| - 1;
    assert counted != cfg.addrs;
    var v := Missing(counted, cfg.addrs);
    var e := Deliver(Packet(v, a, Vote(1, v, true)));
    CountOne(cfg, Run(cfg, events), a, counted, v);
    RunSnoc(cfg, events, e);
    more := events + [e];
    if |counted + {v}| <= |cfg.addrs| / 2 {
      assert cfg.addrs - (counted + {v}) == (cfg.addrs - counted) - {v};
      more := CountVotes(cfg, more, a, counted + {v});
    }
  }

  /** Any buggy cluster of two or more nodes has a run with two leaders in one term. */
  lemma BuggySplits(cfg: Config) returns (events: seq<Event>)
    requires WellFormed(cfg) && cfg.buggy && |cfg.addrs| >= 2
    ensures !ElectionSafe(Run(cfg, events))
  {
    var a := Missing({}, cfg.addrs);
    hide Run, WellFormed;
    assert |{a}| == 1;
    var b := Missing({a}, cfg.addrs);
    events := PollAll(cfg, a, b);
    var polled := Run(cfg, events);
    assert |{a}| == 1 && |{b}| == 1;
    events := CountVotes(cfg, events, a, {a});
    var first := Run(cfg, events);
    assert Claim(a, first.nodes[a]) in first.past;
    assert forall v :: v in cfg.addrs && v != b ==> Granted(polled, v, b);
    events := CountVotes(cfg, events, b, {b});
    var c := Run(cfg, events);
    assert c.nodes[a] == first.nodes[a];
    assert Claim(a, c.nodes[a]) in c.past && Claim(b, c.nodes[b]) in c.past;
  }

  lemma {:induction false} RunGrounded(cfg: Config, events: seq<Event>)
    requires WellFormed(cfg)
    ensures Grounded(cfg, Run(cfg, events))
  {
    if events != [] {
      RunGrounded(cfg, events[..|events| - 1]);
    }
  }

  /** Every run is safe exactly when the single-vote rule is on or the cluster has at most one node. */
  lemma SafeExactlyWhen(cfg: Config)
    requires WellFormed(cfg)
    ensures (forall events :: ElectionSafe(Run(cfg, events))) <==> !cfg.buggy || |cfg.addrs| <= 1
  {
    if !cfg.buggy {
      forall events ensures ElectionSafe(Run(cfg, events)) {
        ElectionSafety(cfg, events);
      }
    } else if |cfg.addrs| <= 1 {
      forall events ensures ElectionSafe(Run(cfg, events)) {
        RunGrounded(cfg, events);
        forall x, y | x in Run(cfg, events).past && y in Run(cfg, events).past
          ensures x.addr == y.addr
        {
          if x.addr != y.addr {
            SubsetSize({x.addr, y.addr}, cfg.addrs);
          }
        }
      }
    } else {
      var events := BuggySplits(cfg);
      assert !ElectionSafe(Run(cfg, events));
    }
  }
}
