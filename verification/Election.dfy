/** A cluster of `RaftNodes` over a network that may lose, duplicate, delay and reorder messages.

    `net` is every message ever sent: losing one is never delivering it, duplicating one is
    delivering it twice. `past` is every state any node has ever been in, so "is or was leader" is a
    fact about it. A run is any list of events; an event that is not possible changes nothing. */
module Election {
  import opened Common
  import opened RaftNodes

  datatype Config = Config(addrs: set<Addr>, peers: map<Addr, seq<Addr>>, buggy: bool)

  datatype Cluster = Cluster(nodes: map<Addr, NodeState>, net: set<Packet>, past: set<Claim>)

  datatype Event = Timeout(a: Addr) | Deliver(p: Packet)

  /** Every node knows every other node, once. */
  ghost predicate WellFormed(cfg: Config) {
    && cfg.peers.Keys == cfg.addrs
    && forall a :: a in cfg.addrs ==> Distinct(cfg.peers[a]) && Elements(cfg.peers[a]) == cfg.addrs - {a}
  }

  function Start(cfg: Config): Cluster {
    var nodes := map a | a in cfg.addrs :: InitialNode;
    Cluster(nodes, {}, set a | a in cfg.addrs :: Claim(a, InitialNode))
  }

  function Moved(c: Cluster, a: Addr, s: NodeState, sends: seq<Packet>): Cluster {
    Cluster(c.nodes[a := s], c.net + (set p | p in sends), c.past + {Claim(a, s)})
  }

  function Happen(cfg: Config, c: Cluster, e: Event): Cluster {
    match e
    case Timeout(a) =>
      if a in c.nodes && a in cfg.peers then
        Moved(c, a, TimedOut(c.nodes[a], a), TimeoutSends(c.nodes[a], a, cfg.peers[a]))
      else c
    case Deliver(p) =>
      if p in c.net && p.dst in c.nodes && p.dst in cfg.peers then
        var s := c.nodes[p.dst];
        var peers := cfg.peers[p.dst];
        Moved(c, p.dst, Handled(s, |peers| + 1, cfg.buggy, p.src, p.msg),
              HandleSends(s, p.dst, peers, cfg.buggy, p.src, p.msg))
      else c
  }

  ghost function Run(cfg: Config, events: seq<Event>): Cluster {
    if events == [] then Start(cfg)
    else Happen(cfg, Run(cfg, events[..|events| - 1]), events[|events| - 1])
  }

  /** No term ever has two different nodes that are or were its leader. */
  ghost predicate ElectionSafe(c: Cluster) {
    forall x, y :: x in c.past && y in c.past && x.state.role == Leader && y.state.role == Leader ==>
      x.state.term == y.state.term ==> x.addr == y.addr
  }

  // ---- the inductive invariant --------------------------------------------------------------------

  /** Node `voter` has, at some moment of term `term`, been committed to `candidate`. */
  ghost predicate HasVoted(c: Cluster, voter: Addr, term: int, candidate: Addr) {
    exists x :: x in c.past && x.addr == voter && x.state.term == term && x.state.votedFor == Some(candidate)
  }

  ghost predicate Grounded(cfg: Config, c: Cluster) {
    && c.nodes.Keys == cfg.addrs
    && (forall a :: a in c.nodes ==> Claim(a, c.nodes[a]) in c.past)
    && (forall x :: x in c.past ==> x.addr in cfg.addrs)
  }

  /** Terms only grow, and within its current term a node's vote does not change. */
  ghost predicate HistoryBehind(c: Cluster) {
    forall x :: x in c.past && x.addr in c.nodes ==>
      && x.state.term <= c.nodes[x.addr].term
      && (x.state.term == c.nodes[x.addr].term && x.state.votedFor.Some? ==> c.nodes[x.addr].votedFor == x.state.votedFor)
  }

  /** A node gives at most one vote per term. */
  ghost predicate SingleVote(c: Cluster) {
    forall x, y :: x in c.past && y in c.past && x.addr == y.addr && x.state.term == y.state.term ==>
      x.state.votedFor.Some? && y.state.votedFor.Some? ==> x.state.votedFor == y.state.votedFor
  }

  /** Every vote counted was given, and every granted vote in flight was given to its receiver. */
  ghost predicate VotesReal(cfg: Config, c: Cluster) {
    && (forall x, v :: x in c.past && v in x.state.votes ==> v in cfg.addrs && HasVoted(c, v, x.state.term, x.addr))
    && (forall p :: p in c.net && p.msg.Vote? && p.msg.granted ==>
          p.msg.voter in cfg.addrs && HasVoted(c, p.msg.voter, p.msg.term, p.dst))
  }

  ghost predicate LeadersElected(cfg: Config, c: Cluster) {
    forall x :: x in c.past && x.state.role == Leader ==> |x.state.votes| > |cfg.addrs| / 2
  }

  ghost predicate Inv(cfg: Config, c: Cluster) {
    Grounded(cfg, c) && HistoryBehind(c) && SingleVote(c) && VotesReal(cfg, c) && LeadersElected(cfg, c)
  }

  lemma PeerCount(cfg: Config, a: Addr)
    requires WellFormed(cfg) && a in cfg.addrs
    ensures |cfg.peers[a]| + 1 == |cfg.addrs|
  {
    DistinctSize(cfg.peers[a]);
  }

  /** What a handler may do to a node's state for the invariant to survive. */
  ghost predicate VoteKept(s: NodeState, t: NodeState) {
    && s.term <= t.term
    && (s.term == t.term && s.votedFor.Some? ==> t.votedFor == s.votedFor)
  }

  lemma VotesRemembered(c: Cluster, a: Addr, t: NodeState, sends: seq<Packet>, v: Addr, term: int, cand: Addr)
    requires HasVoted(c, v, term, cand)
    ensures HasVoted(Moved(c, a, t, sends), v, term, cand)
  {
    var x :| x in c.past && x.addr == v && x.state.term == term && x.state.votedFor == Some(cand);
    assert x in Moved(c, a, t, sends).past;
  }

  lemma MovedKeepsHistory(cfg: Config, c: Cluster, a: Addr, t: NodeState, sends: seq<Packet>)
    requires Grounded(cfg, c) && HistoryBehind(c) && a in cfg.addrs && VoteKept(c.nodes[a], t)
    ensures var d := Moved(c, a, t, sends); Grounded(cfg, d) && HistoryBehind(d)
  {
    assert Moved(c, a, t, sends).nodes.Keys == cfg.addrs;
  }

  lemma MovedKeepsSingleVote(cfg: Config, c: Cluster, a: Addr, t: NodeState, sends: seq<Packet>)
    requires Grounded(cfg, c) && HistoryBehind(c) && SingleVote(c) && a in cfg.addrs && VoteKept(c.nodes[a], t)
    ensures SingleVote(Moved(c, a, t, sends))
  {
    forall x | x in c.past && x.addr == a && x.state.term == t.term && x.state.votedFor.Some?
      ensures t.votedFor == x.state.votedFor
    {
      assert x.state.term == c.nodes[a].term;
    }
  }

  /** The votes a node holds were given to it, this moment's own among them, and it leads only with a majority. */
  ghost predicate Backed(cfg: Config, c: Cluster, a: Addr, t: NodeState) {
    && (t.role == Leader ==> |t.votes| > |cfg.addrs| / 2)
    && (forall v :: v in t.votes ==> v in cfg.addrs && (HasVoted(c, v, t.term, a) || (v == a && t.votedFor == Some(a))))
  }

  /** A vote a node grants is the one it has just recorded. */
  ghost predicate GrantsOwn(a: Addr, t: NodeState, sends: seq<Packet>) {
    forall p :: p in sends && p.msg.Vote? && p.msg.granted ==>
      p.msg.voter == a && p.msg.term == t.term && t.votedFor == Some(p.dst)
  }

  lemma MovedKeepsVotes(cfg: Config, c: Cluster, a: Addr, t: NodeState, sends: seq<Packet>)
    requires VotesReal(cfg, c) && a in cfg.addrs && Backed(cfg, c, a, t) && GrantsOwn(a, t, sends)
    ensures VotesReal(cfg, Moved(c, a, t, sends))
  {
    var d := Moved(c, a, t, sends);
    assert Claim(a, t) in d.past;
    forall v, term, cand | HasVoted(c, v, term, cand)
      ensures HasVoted(d, v, term, cand)
    {
      VotesRemembered(c, a, t, sends, v, term, cand);
    }
  }

  lemma MovedKeepsLeaders(cfg: Config, c: Cluster, a: Addr, t: NodeState, sends: seq<Packet>)
    requires LeadersElected(cfg, c) && Backed(cfg, c, a, t)
    ensures LeadersElected(cfg, Moved(c, a, t, sends))
  {
  }

  lemma MovedKeepsInv(cfg: Config, c: Cluster, a: Addr, t: NodeState, sends: seq<Packet>)
    requires Inv(cfg, c) && a in cfg.addrs && VoteKept(c.nodes[a], t) && Backed(cfg, c, a, t) && GrantsOwn(a, t, sends)
    ensures Inv(cfg, Moved(c, a, t, sends))
  {
    hide VoteKept, Backed, GrantsOwn, Grounded, HistoryBehind, SingleVote, VotesReal, LeadersElected;
    MovedKeepsHistory(cfg, c, a, t, sends);
    MovedKeepsSingleVote(cfg, c, a, t, sends);
    MovedKeepsVotes(cfg, c, a, t, sends);
    MovedKeepsLeaders(cfg, c, a, t, sends);
  }

  lemma TimedOutBacked(cfg: Config, c: Cluster, a: Addr, s: NodeState)
    requires WellFormed(cfg) && VotesReal(cfg, c) && LeadersElected(cfg, c) && a in cfg.addrs && Claim(a, s) in c.past
    ensures VoteKept(s, TimedOut(s, a)) && Backed(cfg, c, a, TimedOut(s, a)) && GrantsOwn(a, TimedOut(s, a), TimeoutSends(s, a, cfg.peers[a]))
  {
    hide HasVoted;
  }

  /** A vote just counted was granted by its sender to this node, in this term. */
  lemma CountedBacked(cfg: Config, c: Cluster, p: Packet, s: NodeState)
    requires VotesReal(cfg, c) && LeadersElected(cfg, c) && p in c.net && p.msg.Vote? && Claim(p.dst, s) in c.past
    ensures Backed(cfg, c, p.dst, Counted(s, |cfg.addrs|, p.msg.term, p.msg.voter, p.msg.granted))
  {
    hide HasVoted;
    var t := Counted(s, |cfg.addrs|, p.msg.term, p.msg.voter, p.msg.granted);
    forall v | v in t.votes
      ensures v in cfg.addrs && HasVoted(c, v, t.term, p.dst)
    {
      assert v in Claim(p.dst, s).state.votes || (v == p.msg.voter && p.msg.granted && p.msg.term == t.term);
    }
  }

  /** With the single-vote rule on, whatever message it is. */
  lemma HandledBacked(cfg: Config, c: Cluster, p: Packet, s: NodeState)
    requires WellFormed(cfg) && VotesReal(cfg, c) && LeadersElected(cfg, c) && p in c.net && p.dst in cfg.addrs && Claim(p.dst, s) in c.past
    ensures var t := Handled(s, |cfg.addrs|, false, p.src, p.msg);
            VoteKept(s, t) && Backed(cfg, c, p.dst, t) && GrantsOwn(p.dst, t, HandleSends(s, p.dst, cfg.peers[p.dst], false, p.src, p.msg))
  {
    hide HasVoted;
    if p.msg.Vote? {
      CountedBacked(cfg, c, p, s);
    } else {
      assert forall v :: v in Claim(p.dst, s).state.votes ==> v in cfg.addrs && HasVoted(c, v, s.term, p.dst);
    }
  }

  /** One vote per node and term, granted votes that match it, and leaders with a majority: every
      event keeps all three when the single-vote rule is on. */
  lemma HappenKeepsInv(cfg: Config, c: Cluster, e: Event)
    requires WellFormed(cfg) && !cfg.buggy && Inv(cfg, c)
    ensures Inv(cfg, Happen(cfg, c, e))
  {
    hide Handled, HandleSends, TimedOut, TimeoutSends, VoteKept, Backed, GrantsOwn, HistoryBehind, SingleVote, VotesReal, LeadersElected;
    match e
    case Timeout(a) =>
      if a in c.nodes {
        var s := c.nodes[a];
        assert Claim(a, s) in c.past;
        TimedOutBacked(cfg, c, a, s);
        MovedKeepsInv(cfg, c, a, TimedOut(s, a), TimeoutSends(s, a, cfg.peers[a]));
      }
    case Deliver(p) =>
      if p in c.net && p.dst in c.nodes {
        var a := p.dst;
        var s := c.nodes[a];
        assert Claim(a, s) in c.past;
        PeerCount(cfg, a);
        HandledBacked(cfg, c, p, s);
        MovedKeepsInv(cfg, c, a, Handled(s, |cfg.addrs|, cfg.buggy, p.src, p.msg),
                      HandleSends(s, a, cfg.peers[a], cfg.buggy, p.src, p.msg));
      }
  }

  lemma StartInv(cfg: Config)
    requires WellFormed(cfg)
    ensures Inv(cfg, Start(cfg))
  {
  }

  lemma {:induction false} RunInv(cfg: Config, events: seq<Event>)
    requires WellFormed(cfg) && !cfg.buggy
    ensures Inv(cfg, Run(cfg, events))
  {
    if events == [] {
      StartInv(cfg);
    } else {
      RunInv(cfg, events[..|events| - 1]);
      HappenKeepsInv(cfg, Run(cfg, events[..|events| - 1]), events[|events| - 1]);
    }
  }

  /** Two majorities of the same set share a member. */
  lemma MajoritiesMeet<T>(a: set<T>, b: set<T>, all: set<T>) returns (x: T)
    requires a <= all && b <= all && |a| > |all| / 2 && |b| > |all| / 2
    ensures x in a && x in b
  {
    assert |a + b| == |a| + |b| - |a * b|;
    SubsetSize(a + b, all);
    x :| x in a * b;
  }

  lemma InvSafe(cfg: Config, c: Cluster)
    requires Inv(cfg, c)
    ensures ElectionSafe(c)
  {
    forall x, y | x in c.past && y in c.past && x.state.role == Leader && y.state.role == Leader &&
                  x.state.term == y.state.term
      ensures x.addr == y.addr
    {
      assert forall v :: v in x.state.votes ==> v in cfg.addrs;
      assert forall v :: v in y.state.votes ==> v in cfg.addrs;
      var v := MajoritiesMeet(x.state.votes, y.state.votes, cfg.addrs);
      assert HasVoted(c, v, x.state.term, x.addr) && HasVoted(c, v, y.state.term, y.addr);
    }
  }

  /** Election Safety (Figure 3 of the Raft paper) for any cluster size and any run. */
  lemma ElectionSafety(cfg: Config, events: seq<Event>)
    requires WellFormed(cfg) && !cfg.buggy
    ensures ElectionSafe(Run(cfg, events))
  {
    RunInv(cfg, events);
    InvSafe(cfg, Run(cfg, events));
  }
}
