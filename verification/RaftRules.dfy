/** The rules of the election as one event shows them, and what they add up to over a run: every
    candidate has asked everybody, every vote was asked for and was announced, every leader was heard
    of, and whoever heard of a leader no longer stands in its term. */
module RaftRules {
  import opened Common
  import opened RaftNodes
  import opened Election
  import opened SplitBrain

  function Actor(e: Event): Addr {
    match e
    case Timeout(a) => a
    case Deliver(p) => p.dst
  }

  /** A node can time out at any moment; a message arrives if it was sent. */
  predicate Possible(cfg: Config, c: Cluster, e: Event) {
    Actor(e) in c.nodes && Actor(e) in cfg.peers && (e.Deliver? ==> e.p in c.net)
  }

  /** One copy of the message to every other node. */
  ghost function ToOthers(cfg: Config, a: Addr, msg: Message): set<Packet>
    requires a in cfg.peers
  {
    set v | v in Elements(cfg.peers[a]) :: Packet(a, v, msg)
  }

  /** The node may still vote for the asker in the term asked about. */
  ghost predicate Free(s: NodeState, buggy: bool, asker: Addr, term: int) {
    s.term < term || (s.term == term && s.role != Leader && (buggy || s.votedFor == None || s.votedFor == Some(asker)))
  }

  /** A newer term makes a follower that has not voted and holds no votes. */
  ghost predicate Renewed(t: NodeState, term: int) {
    t.term == term && t.role == Follower && t.votes == {}
  }

  ghost predicate OnRequest(s: NodeState, t: NodeState, me: Addr, buggy: bool, asker: Addr, term: int, sent: set<Packet>) {
    && (if s.term < term then Renewed(t, term) else t.term == s.term && t.role == s.role && t.votes == s.votes)
    && t.votedFor == (if Free(s, buggy, asker, term) then Some(asker) else s.votedFor)
    && sent == {Packet(me, asker, Vote(t.term, me, Free(s, buggy, asker, term)))}
  }

  ghost predicate OnGrant(cfg: Config, s: NodeState, t: NodeState, me: Addr, voter: Addr, counts: bool, sent: set<Packet>)
    requires me in cfg.peers
  {
    && t.term == s.term && t.votedFor == s.votedFor && t.votes == (if counts then s.votes + {voter} else s.votes)
    && var elected := counts && 2 * |t.votes| > |cfg.peers[me]| + 1;
    && t.role == (if elected then Leader else s.role)
    && sent == (if elected then ToOthers(cfg, me, Heartbeat(t.term, me)) else {})
  }

  ghost predicate OnBeat(s: NodeState, t: NodeState, term: int, sent: set<Packet>) {
    && sent == {}
    && (term < s.term ==> t == s)
    && (term == s.term ==> t.role == Follower && t.term == term && t.votedFor == s.votedFor && t.votes == s.votes)
    && (term > s.term ==> Renewed(t, term) && t.votedFor == None)
  }

  ghost predicate OnSilence(cfg: Config, s: NodeState, t: NodeState, me: Addr, sent: set<Packet>)
    requires me in cfg.peers
  {
    if s.role == Leader then t == s && sent == ToOthers(cfg, me, Heartbeat(s.term, me))
    else
      && t.term == s.term + 1 && t.role == Candidate && t.votedFor == Some(me) && t.votes == {me}
      && sent == ToOthers(cfg, me, RequestVote(t.term, me))
  }

  /** How the node that acts may go from s to t, and what it sends. */
  ghost predicate Obeys(cfg: Config, e: Event, s: NodeState, t: NodeState, sent: set<Packet>)
    requires Actor(e) in cfg.peers
  {
    match e
    case Timeout(a) => OnSilence(cfg, s, t, a, sent)
    case Deliver(p) =>
      match p.msg
      case RequestVote(term, _) => OnRequest(s, t, p.dst, cfg.buggy, p.src, term, sent)
      case Vote(term, voter, granted) => OnGrant(cfg, s, t, p.dst, voter, granted && term == s.term && s.role == Candidate, sent)
      case Heartbeat(term, _) => OnBeat(s, t, term, sent)
      case Unknown => t == s && sent == {}
  }

  /** Only node a changed: it is in state t now, and sent these. */
  ghost predicate Changed(c: Cluster, d: Cluster, a: Addr, t: NodeState, sent: set<Packet>) {
    d.nodes == c.nodes[a := t] && d.net == c.net + sent && d.past == c.past + {Claim(a, t)}
  }

  lemma BroadcastIs(cfg: Config, a: Addr, msg: Message)
    requires a in cfg.peers
    ensures (set p | p in Broadcast(a, cfg.peers[a], msg)) == ToOthers(cfg, a, msg)
  {
    var out := Broadcast(a, cfg.peers[a], msg);
    forall v | v in cfg.peers[a] ensures Packet(a, v, msg) in out {
      var i :| 0 <= i < |cfg.peers[a]| && cfg.peers[a][i] == v;
      assert out[i] == Packet(a, v, msg);
    }
  }

  /** Every possible event follows the rules and touches one node only; any other changes nothing. */
  lemma EventsObey(cfg: Config, c: Cluster, e: Event) returns (sent: set<Packet>)
    ensures !Possible(cfg, c, e) ==> Happen(cfg, c, e) == c
    ensures Possible(cfg, c, e) ==>
              var d := Happen(cfg, c, e); var a := Actor(e);
              a in d.nodes && Changed(c, d, a, d.nodes[a], sent) && Obeys(cfg, e, c.nodes[a], d.nodes[a], sent)
  {
    hide Obeys, Happen;
    sent := {};
    if !Possible(cfg, c, e) {
      NothingHappens(cfg, c, e);
    } else if e.Timeout? {
      sent := SilenceObeys(cfg, c, e);
    } else {
      sent := MessageObeys(cfg, c, e);
    }
  }

  lemma NothingHappens(cfg: Config, c: Cluster, e: Event)
    requires !Possible(cfg, c, e)
    ensures Happen(cfg, c, e) == c
  {
  }

  lemma SilenceObeys(cfg: Config, c: Cluster, e: Event) returns (sent: set<Packet>)
    requires Possible(cfg, c, e) && e.Timeout?
    ensures var d := Happen(cfg, c, e); var a := Actor(e);
            a in d.nodes && Changed(c, d, a, d.nodes[a], sent) && Obeys(cfg, e, c.nodes[a], d.nodes[a], sent)
  {
    hide ToOthers, Broadcast;
    var a := Actor(e);
    var s := c.nodes[a];
    sent := set p | p in TimeoutSends(s, a, cfg.peers[a]);
    BroadcastIs(cfg, a, if s.role == Leader then Heartbeat(s.term, a) else RequestVote(s.term + 1, a));
  }

  lemma MessageObeys(cfg: Config, c: Cluster, e: Event) returns (sent: set<Packet>)
    requires Possible(cfg, c, e) && e.Deliver?
    ensures var d := Happen(cfg, c, e); var a := Actor(e);
            a in d.nodes && Changed(c, d, a, d.nodes[a], sent) && Obeys(cfg, e, c.nodes[a], d.nodes[a], sent)
  {
    hide Obeys, Handled, HandleSends;
    sent := set q | q in HandleSends(c.nodes[e.p.dst], e.p.dst, cfg.peers[e.p.dst], cfg.buggy, e.p.src, e.p.msg);
    HandlerObeys(cfg, e.p, c.nodes[e.p.dst]);
  }

  lemma HandlerObeys(cfg: Config, p: Packet, s: NodeState)
    requires p.dst in cfg.peers
    ensures Obeys(cfg, Deliver(p), s, Handled(s, |cfg.peers[p.dst]| + 1, cfg.buggy, p.src, p.msg),
                  set q | q in HandleSends(s, p.dst, cfg.peers[p.dst], cfg.buggy, p.src, p.msg))
  {
    if p.msg.Vote? {
      hide Broadcast, ToOthers;
      BroadcastIs(cfg, p.dst, Heartbeat(s.term, p.dst));
    }
  }

  // ---- what everybody has been told ---------------------------------------------------------------------

  /** Whoever stands or leads has its own vote and has asked everybody for theirs. */
  ghost predicate HasAsked(cfg: Config, x: Claim, net: set<Packet>)
    requires x.addr in cfg.peers
  {
    x.state.role != Follower ==> x.addr in x.state.votes && ToOthers(cfg, x.addr, RequestVote(x.state.term, x.addr)) <= net
  }

  /** A vote for somebody else was told to that somebody. */
  ghost predicate VoteTold(x: Claim, net: set<Packet>) {
    x.state.votedFor.Some? && x.state.votedFor.value != x.addr ==>
      Packet(x.addr, x.state.votedFor.value, Vote(x.state.term, x.addr, true)) in net
  }

  /** Everybody has been sent a heartbeat by whoever leads. */
  ghost predicate HasAnnounced(cfg: Config, x: Claim, net: set<Packet>)
    requires x.addr in cfg.peers
  {
    x.state.role == Leader ==> ToOthers(cfg, x.addr, Heartbeat(x.state.term, x.addr)) <= net
  }

  ghost predicate AllTold(cfg: Config, c: Cluster) {
    forall x :: x in c.past ==> x.addr in cfg.peers && HasAsked(cfg, x, c.net) && VoteTold(x, c.net) && HasAnnounced(cfg, x, c.net)
  }

  /** Node a was in this role in this term. */
  ghost predicate Was(c: Cluster, a: Addr, role: Role, term: int) {
    exists x :: x in c.past && x.addr == a && x.state.role == role && x.state.term == term
  }

  /** What a message says is so, and its sender says it of itself. */
  ghost predicate Truthful(c: Cluster, p: Packet) {
    match p.msg
    case RequestVote(term, candidate) => p.src == candidate && Was(c, candidate, Candidate, term)
    case Heartbeat(term, leader) => p.src == leader && Was(c, leader, Leader, term)
    case Vote(term, voter, granted) =>
      p.src == voter && (granted ==> HasVoted(c, voter, term, p.dst) && Packet(p.dst, voter, RequestVote(term, p.dst)) in c.net)
    case Unknown => false
  }

  ghost predicate AllTruthful(c: Cluster) {
    forall p :: p in c.net ==> Truthful(c, p)
  }

  ghost predicate Public(cfg: Config, c: Cluster) {
    Grounded(cfg, c) && AllTold(cfg, c) && AllTruthful(c)
  }

  lemma StaysTold(cfg: Config, c: Cluster, d: Cluster, x: Claim)
    requires x in c.past && c.net <= d.net && AllTold(cfg, c)
    ensures x.addr in cfg.peers && HasAsked(cfg, x, d.net) && VoteTold(x, d.net) && HasAnnounced(cfg, x, d.net)
  {
    assert HasAsked(cfg, x, c.net) && VoteTold(x, c.net) && HasAnnounced(cfg, x, c.net);
  }

  lemma StaysTruthful(c: Cluster, d: Cluster, p: Packet)
    requires Truthful(c, p) && c.net <= d.net && c.past <= d.past
    ensures Truthful(d, p)
  {
    match p.msg
    case RequestVote(term, a) =>
      var x :| x in c.past && x.addr == a && x.state.role == Candidate && x.state.term == term;
      assert x in d.past;
    case Heartbeat(term, a) =>
      var x :| x in c.past && x.addr == a && x.state.role == Leader && x.state.term == term;
      assert x in d.past;
    case Vote(term, voter, granted) =>
      if granted {
        var x :| x in c.past && x.addr == voter && x.state.term == term && x.state.votedFor == Some(p.dst);
        assert x in d.past;
      }
    case Unknown =>
  }

  /** The state an event leads to has been told of. */
  lemma NewTold(cfg: Config, c: Cluster, e: Event, t: NodeState, sent: set<Packet>)
    requires Possible(cfg, c, e) && Public(cfg, c) && Obeys(cfg, e, c.nodes[Actor(e)], t, sent)
    ensures var x := Claim(Actor(e), t); HasAsked(cfg, x, c.net + sent) && VoteTold(x, c.net + sent) && HasAnnounced(cfg, x, c.net + sent)
  {
    var a := Actor(e);
    StaysTold(cfg, c, c, Claim(a, c.nodes[a]));
  }

  /** The messages an event sends are truthful. */
  lemma NewTruthful(cfg: Config, c: Cluster, e: Event, d: Cluster, sent: set<Packet>, p: Packet)
    requires Possible(cfg, c, e) && Public(cfg, c) && Actor(e) in d.nodes
    requires Changed(c, d, Actor(e), d.nodes[Actor(e)], sent) && Obeys(cfg, e, c.nodes[Actor(e)], d.nodes[Actor(e)], sent) && p in sent
    ensures Truthful(d, p)
  {
    var a := Actor(e);
    var x := Claim(a, d.nodes[a]);
    assert x in d.past;
    if e.Deliver? && e.p.msg.RequestVote? && p.msg.granted {
      assert Truthful(c, e.p);
      assert e.p == Packet(p.dst, a, RequestVote(p.msg.term, p.dst));
    }
  }

  lemma HappenPublic(cfg: Config, c: Cluster, e: Event)
    requires WellFormed(cfg) && Public(cfg, c)
    ensures Public(cfg, Happen(cfg, c, e))
  {
    hide Happen, Obeys, Truthful, HasAsked, VoteTold, HasAnnounced;
    var sent := EventsObey(cfg, c, e);
    if Possible(cfg, c, e) {
      var d := Happen(cfg, c, e);
      var a := Actor(e);
      NewTold(cfg, c, e, d.nodes[a], sent);
      forall x | x in d.past
        ensures x.addr in cfg.peers && HasAsked(cfg, x, d.net) && VoteTold(x, d.net) && HasAnnounced(cfg, x, d.net)
      {
        if x in c.past { StaysTold(cfg, c, d, x); }
      }
      forall p | p in d.net ensures Truthful(d, p) {
        if p in c.net { StaysTruthful(c, d, p); } else { NewTruthful(cfg, c, e, d, sent, p); }
      }
    }
  }

  /** After any run, of a correct or a buggy cluster: whoever is or was candidate or leader has asked
      every other node for its vote in that term, every vote was told to whom it was given, every leader
      has sent every other node a heartbeat; and no message was sent that is not so: requests come from
      candidates, granted votes from voters that were asked, heartbeats from leaders. */
  lemma {:induction false} EverybodyTold(cfg: Config, events: seq<Event>)
    requires WellFormed(cfg)
    ensures Public(cfg, Run(cfg, events))
  {
    hide Happen, Public;
    if events == [] {
      assert Public(cfg, Start(cfg)) by { StartPublic(cfg); }
    } else {
      EverybodyTold(cfg, events[..|events| - 1]);
      HappenPublic(cfg, Run(cfg, events[..|events| - 1]), events[|events| - 1]);
    }
  }

  lemma StartPublic(cfg: Config)
    requires WellFormed(cfg)
    ensures Public(cfg, Start(cfg))
  {
  }

  /** In a correct cluster all heartbeats of one term come from one node. */
  lemma HeartbeatsAgree(cfg: Config, events: seq<Event>, p: Packet, q: Packet)
    requires WellFormed(cfg) && !cfg.buggy && p in Run(cfg, events).net && q in Run(cfg, events).net
    requires p.msg.Heartbeat? && q.msg.Heartbeat? && p.msg.term == q.msg.term
    ensures p.src == q.src == p.msg.leader == q.msg.leader
  {
    hide Run, AllTold, Grounded;
    var c := Run(cfg, events);
    EverybodyTold(cfg, events);
    ElectionSafety(cfg, events);
    assert Truthful(c, p) && Truthful(c, q);
  }

  // ---- stepping down --------------------------------------------------------------------------------------

  /** The node is past standing or leading in this term. */
  ghost predicate Past(s: NodeState, term: int) {
    s.term > term || (s.term == term && s.role == Follower)
  }

  /** Nothing brings a node back to a term it is past. */
  lemma HappenStaysPast(cfg: Config, c: Cluster, e: Event, a: Addr, term: int)
    requires a in c.nodes && Past(c.nodes[a], term)
    ensures a in Happen(cfg, c, e).nodes && Past(Happen(cfg, c, e).nodes[a], term)
  {
    hide Happen;
    var _ := EventsObey(cfg, c, e);
  }

  /** A heartbeat of term t, however old, leaves its receiver past standing or leading in t. */
  lemma BeatStepsDown(cfg: Config, c: Cluster, p: Packet)
    requires Possible(cfg, c, Deliver(p)) && p.msg.Heartbeat?
    ensures var d := Happen(cfg, c, Deliver(p)); p.dst in d.nodes && Past(d.nodes[p.dst], p.msg.term) && d.net == c.net
  {
    hide Happen;
    var _ := EventsObey(cfg, c, Deliver(p));
  }

  /** Once a node has been delivered a heartbeat of term t it is never again candidate or leader in t. */
  lemma {:induction false} NeverStandsAgain(cfg: Config, events: seq<Event>, k: nat)
    requires k < |events| && events[k].Deliver? && events[k].p.msg.Heartbeat? && Possible(cfg, Run(cfg, events[..k]), events[k])
    ensures var p := events[k].p; var c := Run(cfg, events); p.dst in c.nodes && Past(c.nodes[p.dst], p.msg.term)
    decreases |events|
  {
    hide Happen, Possible, Past;
    var last := |events| - 1;
    if k == last {
      BeatStepsDown(cfg, Run(cfg, events[..k]), events[k].p);
    } else {
      assert events[..last][..k] == events[..k];
      NeverStandsAgain(cfg, events[..last], k);
      HappenStaysPast(cfg, Run(cfg, events[..last]), events[last], events[k].p.dst, events[k].p.msg.term);
    }
  }

  // ---- who is heard ----------------------------------------------------------------------------------------

  /** A node that may still vote gives its vote to whoever asks, whatever the cluster. */
  lemma AskedGives(cfg: Config, c: Cluster, p: Packet)
    requires Possible(cfg, c, Deliver(p)) && p.msg.RequestVote? && Free(c.nodes[p.dst], cfg.buggy, p.src, p.msg.term)
    ensures var d := Happen(cfg, c, Deliver(p));
            && p.dst in d.nodes && d.nodes[p.dst].term == p.msg.term && d.nodes[p.dst].votedFor == Some(p.src)
            && Packet(p.dst, p.src, Vote(p.msg.term, p.dst, true)) in d.net && HasVoted(d, p.dst, p.msg.term, p.src)
  {
    hide Happen;
    var _ := EventsObey(cfg, c, Deliver(p));
    assert Claim(p.dst, Happen(cfg, c, Deliver(p)).nodes[p.dst]) in Happen(cfg, c, Deliver(p)).past;
  }

  /** A cluster of one node never has a leader: only another node's vote elects. */
  lemma {:induction false} AloneNeverLeads(cfg: Config, events: seq<Event>)
    requires WellFormed(cfg) && |cfg.addrs| == 1
    ensures var c := Run(cfg, events); c.net == {} && forall x :: x in c.past ==> x.state.role != Leader
  {
    hide Happen;
    if events != [] {
      var front := events[..|events| - 1];
      var e := events[|events| - 1];
      AloneNeverLeads(cfg, front);
      var c := Run(cfg, front);
      RunGrounded(cfg, front);
      var sent := EventsObey(cfg, c, e);
      if Possible(cfg, c, e) {
        var a := Actor(e);
        PeerCount(cfg, a);
        assert cfg.peers[a] == [];
        assert Claim(a, c.nodes[a]) in c.past;
      }
    }
  }
}
