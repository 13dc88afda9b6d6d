/** Every run of the network: scenario code may do anything between and within the loop's own moves.
    A step of the loop is a jump of the clock if nothing is ready, then firing what is due, then taking
    what is ready; allowing those moves in any number and mixed with any user action covers every run
    of `DeterministicLoop`, and more. */
module NetMachine {
  import opened Common
  import opened Agendas
  import opened NetModel
  import opened NetFaults

  datatype Act =
    | Bind(a: Addr, reliable: bool, loss: Num, duplicate: Num)
    | CutNow(groups: Groups) | HealNow
    | DoSend(src: Addr, dst: Addr, msg: Message)
    | RecvStart(a: Addr) | RecvResume(a: Addr) | RecvInterrupt(a: Addr) | RecvLeave(a: Addr)
    | UserSoon(k: nat) | UserAt(k: nat, when: Deadline) | Forget(what: Callback)
    | EnterRunFor(seconds: Num, list: seq<Fault>)
    | JumpClock | FireTimers | TakeNext

  /** Timers nobody holds a handle to: user code can only cancel its own and a sleeping `run_for`. */
  predicate Lasting(what: Callback) { !what.User? && !what.Wake? }

  function WithEndpoint(s: Sys, a: Addr, e: Endpoint): (t: Sys)
    ensures t == s.(endpoints := t.endpoints)
  {
    s.(endpoints := s.endpoints[a := e])
  }

  /** What a receiver does to its endpoint. A second `recv` beside a waiting one is refused; a receiver
      cancelled while it waits only clears its waiter. */
  function Receiver(e: Endpoint, act: Act): Endpoint {
    match act
    case RecvStart(_) => if e.waiter.Idle? then TryRecv(e) else e
    case RecvResume(_) => if e.waiter.Woken? then TryRecv(e.(waiter := Idle)) else e
    case RecvInterrupt(_) => if e.waiter.Waiting? then e.(waiter := Woken) else e
    case RecvLeave(_) => e.(waiter := Idle)
    case _ => e
  }

  function WithAgenda(s: Sys, a: Agenda<Callback>): (t: Sys)
    ensures t == s.(agenda := a)
  {
    s.(agenda := a)
  }

  /** The next ready entry is taken and run. */
  function TakeOne(s: Sys): (t: Sys)
    requires s.agenda.ready != []
    ensures t == s.(agenda := t.agenda, timeline := t.timeline, endpoints := t.endpoints,
                    faultPartitions := t.faultPartitions, slowLinks := t.slowLinks, crashed := t.crashed)
    ensures t.agenda == Take(s.agenda, true)
  {
    var t := WithAgenda(s, Take(s.agenda, true));
    if s.agenda.ready[0].Fired? then Fire(t, s.agenda.ready[0].timer.what, |s.agenda.taken|) else t
  }

  ghost function Apply(s: Sys, ent: Entropy, act: Act): Sys
    requires EventuallySplits(ent)
  {
    match act
    case Bind(a, reliable, loss, duplicate) => BindTo(s, a, reliable, loss, duplicate)
    case CutNow(groups) => s.(partition := Some(groups))
    case HealNow => s.(partition := None)
    case DoSend(src, dst, msg) => if src in s.endpoints then Send(s, ent, src, dst, msg) else s
    case RecvStart(a) => if a in s.endpoints then WithEndpoint(s, a, Receiver(s.endpoints[a], act)) else s
    case RecvResume(a) => if a in s.endpoints then WithEndpoint(s, a, Receiver(s.endpoints[a], act)) else s
    case RecvInterrupt(a) => if a in s.endpoints then WithEndpoint(s, a, Receiver(s.endpoints[a], act)) else s
    case RecvLeave(a) => if a in s.endpoints then WithEndpoint(s, a, Receiver(s.endpoints[a], act)) else s
    case UserSoon(k) => WithAgenda(s, CallSoon(s.agenda, User(k)))
    case UserAt(k, when) => Schedule(s, when, User(k))
    case Forget(what) => if Lasting(what) then s else WithAgenda(s, Cancel(s.agenda, what))
    case EnterRunFor(seconds, list) => RunFor(s, ent, seconds, list)
    case JumpClock => if s.agenda.ready == [] && CanJump(s.agenda) then WithAgenda(s, Jump(s.agenda)) else s
    case FireTimers => WithAgenda(s, FireDue(s.agenda))
    case TakeNext => if s.agenda.ready != [] then TakeOne(s) else s
  }

  ghost function Run(ent: Entropy, acts: seq<Act>): Sys
    requires EventuallySplits(ent)
  {
    if acts == [] then NewSys
    else Apply(Run(ent, acts[..|acts| - 1]), ent, acts[|acts| - 1])
  }
}
