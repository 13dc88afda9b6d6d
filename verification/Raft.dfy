/** One node's election logic (src/seedloop/demos/raft.py), without the waiting: `run` turns a
    receive timeout or a received message into exactly one of the handlers below, and no handler
    suspends, because sending only schedules a delivery. */
module RaftNodes {
  import opened Common

  type Addr = int

  datatype Role = Follower | Candidate | Leader

  datatype Message =
    | RequestVote(term: int, candidate: Addr)
    | Vote(term: int, voter: Addr, granted: bool)
    | Heartbeat(term: int, leader: Addr)
    | Unknown

  datatype Packet = Packet(src: Addr, dst: Addr, msg: Message)

  datatype NodeState = NodeState(term: int, role: Role, votedFor: Option<Addr>, votes: set<Addr>)

  const InitialNode := NodeState(0, Follower, None, {})

  // ---- what each handler does, as a function of the node's state --------------------------------

  function Broadcast(me: Addr, peers: seq<Addr>, msg: Message): (out: seq<Packet>) {
    seq(|peers|, i requires 0 <= i < |peers| => Packet(me, peers[i], msg))
  }

  function Adopted(s: NodeState, term: int): NodeState {
    if term > s.term then NodeState(term, Follower, None, {}) else s
  }

  function Elected(s: NodeState, me: Addr): NodeState {
    NodeState(s.term + 1, Candidate, Some(me), {me})
  }

  predicate Grants(s: NodeState, buggy: bool, src: Addr, term: int) {
    term == s.term && s.role != Leader && (buggy || s.votedFor == None || s.votedFor == Some(src))
  }

  function Voted(s: NodeState, buggy: bool, src: Addr, term: int): NodeState {
    var a := Adopted(s, term);
    if Grants(a, buggy, src, term) then a.(votedFor := Some(src)) else a
  }

  function Reply(s: NodeState, me: Addr, buggy: bool, src: Addr, term: int): Packet {
    var a := Adopted(s, term);
    Packet(me, src, Vote(a.term, me, Grants(a, buggy, src, term)))
  }

  predicate Counts(s: NodeState, term: int, granted: bool) {
    term == s.term && s.role == Candidate && granted
  }

  function Counted(s: NodeState, all: nat, term: int, voter: Addr, granted: bool): NodeState {
    if Counts(s, term, granted) then
      var votes := s.votes + {voter};
      s.(votes := votes, role := if |votes| > all / 2 then Leader else s.role)
    else s
  }

  function Heard(s: NodeState, term: int): NodeState {
    var a := Adopted(s, term);
    if term == a.term then a.(role := Follower) else a
  }

  /** A receive timeout: a leader sends heartbeats, anybody else starts an election. */
  function TimedOut(s: NodeState, me: Addr): NodeState {
    if s.role == Leader then s else Elected(s, me)
  }

  function TimeoutSends(s: NodeState, me: Addr, peers: seq<Addr>): seq<Packet> {
    if s.role == Leader then Broadcast(me, peers, Heartbeat(s.term, me))
    else Broadcast(me, peers, RequestVote(s.term + 1, me))
  }

  function Handled(s: NodeState, all: nat, buggy: bool, src: Addr, msg: Message): NodeState {
    match msg
    case RequestVote(term, _) => Voted(s, buggy, src, term)
    case Vote(term, voter, granted) => Counted(s, all, term, voter, granted)
    case Heartbeat(term, _) => Heard(s, term)
    case Unknown => s
  }

  function HandleSends(s: NodeState, me: Addr, peers: seq<Addr>, buggy: bool, src: Addr, msg: Message): seq<Packet> {
    match msg
    case RequestVote(term, _) => [Reply(s, me, buggy, src, term)]
    case Vote(term, voter, granted) =>
      var s' := Counted(s, |peers| + 1, term, voter, granted);
      if Counts(s, term, granted) && s'.role == Leader then Broadcast(me, peers, Heartbeat(s.term, me)) else []
    case Heartbeat(_, _) => []
    case Unknown => []
  }

  // ---- the node object --------------------------------------------------------------------------

  /** A node updated in place; `sent` is everything its endpoint has been asked to send. */
  class RaftNode {
    const addr: Addr
    const peers: seq<Addr>
    const buggy: bool
    var term: int
    var role: Role
    var votedFor: Option<Addr>
    var votes: set<Addr>
    var sent: seq<Packet>

    constructor (addr: Addr, peers: seq<Addr>, buggy: bool)
      ensures this.addr == addr && this.peers == peers && this.buggy == buggy
      ensures State() == InitialNode && sent == []
    {
      this.addr, this.peers, this.buggy := addr, peers, buggy;
      term, role, votedFor, votes, sent := 0, Follower, None, {}, [];
    }

    function State(): NodeState
      reads this
    {
      NodeState(term, role, votedFor, votes)
    }

    method BroadcastAll(msg: Message)
      modifies this`sent
      ensures sent == old(sent) + Broadcast(addr, peers, msg)
    {
      var i := 0;
      while i < |peers|
        invariant 0 <= i <= |peers|
        invariant sent == old(sent) + Broadcast(addr, peers, msg)[..i]
      {
        sent := sent + [Packet(addr, peers[i], msg)];
        i := i + 1;
      }
    }

    method AdoptNewerTerm(newTerm: int)
      modifies this`term, this`role, this`votedFor, this`votes
      ensures State() == Adopted(old(State()), newTerm)
    {
      if newTerm > term {
        term := newTerm;
        role := Follower;
        votedFor := None;
        votes := {};
      }
    }

    method BeginElection()
      modifies this
      ensures State() == Elected(old(State()), addr)
      ensures sent == old(sent) + Broadcast(addr, peers, RequestVote(old(term) + 1, addr))
    {
      term := term + 1;
      role := Candidate;
      votedFor := Some(addr);
      votes := {addr};
      BroadcastAll(RequestVote(term, addr));
    }

    method OnRequestVote(src: Addr, requested: int)
      modifies this
      ensures State() == Voted(old(State()), buggy, src, requested)
      ensures sent == old(sent) + [Reply(old(State()), addr, buggy, src, requested)]
    {
      AdoptNewerTerm(requested);
      var grant := false;
      if requested == term && role != Leader && (buggy || votedFor == None || votedFor == Some(src)) {
        grant := true;
        votedFor := Some(src);
      }
      sent := sent + [Packet(addr, src, Vote(term, addr, grant))];
    }

    method OnVote(voteTerm: int, voter: Addr, granted: bool)
      modifies this
      ensures State() == Counted(old(State()), |peers| + 1, voteTerm, voter, granted)
      ensures sent == old(sent) + HandleSends(old(State()), addr, peers, buggy, 0, Vote(voteTerm, voter, granted))
    {
      if voteTerm == term && role == Candidate && granted {
        votes := votes + {voter};
        if |votes| > (|peers| + 1) / 2 {
          role := Leader;
          BroadcastAll(Heartbeat(term, addr));
        }
      }
    }

    method OnHeartbeat(beat: int)
      modifies this`term, this`role, this`votedFor, this`votes
      ensures State() == Heard(old(State()), beat)
    {
      AdoptNewerTerm(beat);
      if beat == term && role != Follower {
        role := Follower;
      }
    }

    method Handle(src: Addr, msg: Message)
      modifies this
      ensures State() == Handled(old(State()), |peers| + 1, buggy, src, msg)
      ensures sent == old(sent) + HandleSends(old(State()), addr, peers, buggy, src, msg)
    {
      match msg
      case RequestVote(t, _) => OnRequestVote(src, t);
      case Vote(t, voter, granted) => OnVote(t, voter, granted);
      case Heartbeat(t, _) => OnHeartbeat(t);
      case Unknown =>
    }

    method OnTimeout()
      modifies this
      ensures State() == TimedOut(old(State()), addr)
      ensures sent == old(sent) + TimeoutSends(old(State()), addr, peers)
    {
      if role == Leader {
        BroadcastAll(Heartbeat(term, addr));
      } else {
        BeginElection();
      }
    }
  }

  // ---- the property the demo checks ---------------------------------------------------------------

  datatype Claim = Claim(addr: Addr, state: NodeState)

  /** No two different nodes of the list lead the same term. */
  ghost predicate OneLeaderPerTerm(nodes: seq<Claim>) {
    forall i, j :: 0 <= i < |nodes| && 0 <= j < |nodes| && nodes[i].state.role == Leader &&
                   nodes[j].state.role == Leader && nodes[i].state.term == nodes[j].state.term
                   ==> nodes[i].addr == nodes[j].addr
  }

  ghost function LeadersOf(nodes: seq<Claim>, term: int): set<Addr> {
    set i | 0 <= i < |nodes| && nodes[i].state.role == Leader && nodes[i].state.term == term :: nodes[i].addr
  }

  /** `leaders_by_term`: exactly the terms that have a leader, each with exactly its leaders. */
  method LeadersByTerm(nodes: seq<Claim>) returns (out: map<int, set<Addr>>)
    ensures forall t :: t in out <==> LeadersOf(nodes, t) != {}
    ensures forall t :: t in out ==> out[t] == LeadersOf(nodes, t)
  {
    out := map[];
    var i := 0;
    while i < |nodes|
      invariant 0 <= i <= |nodes|
      invariant forall t :: t in out <==> LeadersOf(nodes[..i], t) != {}
      invariant forall t :: t in out ==> out[t] == LeadersOf(nodes[..i], t)
    {
      var c := nodes[i];
      assert nodes[..i + 1] == nodes[..i] + [c];
      forall t ensures LeadersOf(nodes[..i + 1], t) ==
                       LeadersOf(nodes[..i], t) + (if c.state.role == Leader && c.state.term == t then {c.addr} else {})
      {
        LeadersSnoc(nodes[..i], c, t);
      }
      if c.state.role == Leader {
        var t := c.state.term;
        out := out[t := (if t in out then out[t] else {}) + {c.addr}];
      }
      i := i + 1;
    }
    assert nodes[..i] == nodes;
  }

  lemma LeadersSnoc(nodes: seq<Claim>, c: Claim, t: int)
    ensures LeadersOf(nodes + [c], t) ==
            LeadersOf(nodes, t) + (if c.state.role == Leader && c.state.term == t then {c.addr} else {})
  {
    var all := nodes + [c];
    assert forall i :: 0 <= i < |nodes| ==> all[i] == nodes[i];
    assert all[|nodes|] == c;
    forall a | a in LeadersOf(nodes, t)
      ensures a in LeadersOf(all, t)
    {
      var i :| 0 <= i < |nodes| && nodes[i].state.role == Leader && nodes[i].state.term == t && nodes[i].addr == a;
      assert all[i].addr == a;
    }
  }

  /** `at_most_one_leader_per_term` answers true exactly when no term has two leaders. */
  method AtMostOneLeaderPerTerm(nodes: seq<Claim>) returns (ok: bool)
    ensures ok <==> OneLeaderPerTerm(nodes)
  {
    var byTerm := LeadersByTerm(nodes);
    ok := forall t | t in byTerm.Keys :: |byTerm[t]| <= 1;
    if ok {
      forall i, j | 0 <= i < |nodes| && 0 <= j < |nodes| && nodes[i].state.role == Leader &&
                    nodes[j].state.role == Leader && nodes[i].state.term == nodes[j].state.term
        ensures nodes[i].addr == nodes[j].addr
      {
        var t := nodes[i].state.term;
        assert nodes[i].addr in LeadersOf(nodes, t) && nodes[j].addr in LeadersOf(nodes, t);
        if nodes[i].addr != nodes[j].addr {
          SubsetSize({nodes[i].addr, nodes[j].addr}, LeadersOf(nodes, t));
        }
      }
    } else {
      var t :| t in byTerm.Keys && |byTerm[t]| > 1;
      var a :| a in byTerm[t];
      assert |byTerm[t] - {a}| > 0;
      var b :| b in byTerm[t] - {a};
      assert a in LeadersOf(nodes, t) && b in LeadersOf(nodes, t);
    }
  }
}
