/**
 The buffered channel (internal/core/channel/buffered.go). Its condition variable is hand-made: a
 waiter remembers the current `notify` channel while it holds the lock, and every change of state
 replaces that channel and closes the old one. Generations number the channels that `notify` has
 been; any number of senders and receivers interleave at their critical sections.
 */
module BufferedChannel {
  import opened Wrappers
  import opened ChannelModel

  // ---------------------------------------------------------------- critical sections

  /** The channel, with the logs of the messages it accepted and of those that left its buffer. */
  datatype Chan = Chan(
    buffer: seq<Message>, maxSize: nat, closed: bool, gen: nat,
    accepted: seq<Message>, taken: seq<Message>)

  /** What one critical section decides; `index` is the place in the log, `gen` the channel to wait on. */
  datatype Attempt =
    | Sent(index: nat)
    | Received(message: Message, index: nat)
    | Refused
    | MustWait(gen: nat)

  function TrySend(c: Chan, m: Message): (Chan, Attempt) {
    if c.closed then (c, Refused)
    else if |c.buffer| < c.maxSize then
      (c.(buffer := c.buffer + [m], accepted := c.accepted + [m], gen := c.gen + 1), Sent(|c.accepted|))
    else (c, MustWait(c.gen))
  }

  function TryReceive(c: Chan): (Chan, Attempt) {
    if |c.buffer| > 0 then
      (c.(buffer := c.buffer[1..], taken := c.taken + [c.buffer[0]], gen := c.gen + 1),
       Received(c.buffer[0], |c.taken|))
    else if c.closed then (c, Refused)
    else (c, MustWait(c.gen))
  }

  function CloseChan(c: Chan): Chan {
    if c.closed then c else c.(closed := true, gen := c.gen + 1)
  }

  function ClearChan(c: Chan): Chan {
    c.(buffer := [], taken := c.taken + c.buffer, gen := c.gen + 1)
  }

  // ---------------------------------------------------------------- interleavings

  /** A call in its retry loop: about to lock, about to select, in the select, or back. */
  datatype Phase = Trying | Checking(gen: nat) | Asleep(gen: nat) | Returned(result: Result<Attempt, ChannelError>)

  datatype Call = Sender(message: Message, phase: Phase) | Receiver(phase: Phase)

  datatype Sys = Sys(chan: Chan, calls: map<nat, Call>)

  datatype Action =
    | CallSend(id: nat, message: Message)
    | CallReceive(id: nat)
    | TryOnce(id: nat)       // one critical section
    | Select(id: nat)        // neither cancelled nor late: enter the select
    | Wake(id: nat)          // the remembered notify channel is closed
    | GiveUp(id: nat, err: ChannelError)
    | Close
    | Clear

  ghost predicate Enabled(s: Sys, a: Action) {
    match a
    case CallSend(id, _) => id !in s.calls
    case CallReceive(id) => id !in s.calls
    case TryOnce(id) => id in s.calls && s.calls[id].phase.Trying?
    case Select(id) => id in s.calls && s.calls[id].phase.Checking?
    case Wake(id) => id in s.calls && s.calls[id].phase.Asleep? && s.calls[id].phase.gen < s.chan.gen
    case GiveUp(id, err) =>
      id in s.calls && (s.calls[id].phase.Checking? || s.calls[id].phase.Asleep?) && (err.TimedOut? || err.Cancelled?)
    case Close => true
    case Clear => true
  }

  function Settle(a: Attempt): Phase {
    match a
    case MustWait(gen) => Checking(gen)
    case Refused => Returned(Failure(ChannelClosed))
    case _ => Returned(Success(a))
  }

  ghost function Apply(s: Sys, a: Action): Sys
    requires Enabled(s, a)
  {
    match a
    case CallSend(id, m) =>
      var phase := match Validate(m) case None => Trying case Some(err) => Returned(Failure(err));
      s.(calls := s.calls[id := Sender(m, phase)])
    case CallReceive(id) => s.(calls := s.calls[id := Receiver(Trying)])
    case TryOnce(id) =>
      var (chan, attempt) :=
        if s.calls[id].Sender? then TrySend(s.chan, s.calls[id].message) else TryReceive(s.chan);
      Sys(chan, s.calls[id := s.calls[id].(phase := Settle(attempt))])
    case Select(id) => s.(calls := s.calls[id := s.calls[id].(phase := Asleep(s.calls[id].phase.gen))])
    case Wake(id) => s.(calls := s.calls[id := s.calls[id].(phase := Trying)])
    case GiveUp(id, err) => s.(calls := s.calls[id := s.calls[id].(phase := Returned(Failure(err)))])
    case Close => s.(chan := CloseChan(s.chan))
    case Clear => s.(chan := ClearChan(s.chan))
  }

  ghost predicate Admits(s: Sys, script: seq<Action>)
    decreases |script|
  {
    script == [] || (Enabled(s, script[0]) && Admits(Apply(s, script[0]), script[1..]))
  }

  ghost function Exec(s: Sys, script: seq<Action>): Sys
    requires Admits(s, script)
    decreases |script|
  {
    if script == [] then s else Exec(Apply(s, script[0]), script[1..])
  }

  function Empty(maxSize: nat): Sys {
    Sys(Chan([], maxSize, false, 0, [], []), map[])
  }

  // ---------------------------------------------------------------- no lost wake-up

  predicate Remembers(p: Phase, gen: nat) {
    (p.Checking? || p.Asleep?) && p.gen == gen
  }

  /** Whoever remembers the current notify channel is waiting for something that has not happened. */
  ghost predicate WaitsRightly(s: Sys) {
    && s.chan.maxSize > 0 && |s.chan.buffer| <= s.chan.maxSize
    && (forall id :: id in s.calls && (s.calls[id].phase.Checking? || s.calls[id].phase.Asleep?) ==>
        s.calls[id].phase.gen <= s.chan.gen)
    && (forall id :: id in s.calls && Remembers(s.calls[id].phase, s.chan.gen) ==>
          && !s.chan.closed
          && (if s.calls[id].Sender? then |s.chan.buffer| == s.chan.maxSize else s.chan.buffer == []))
  }

  lemma StepWaitsRightly(s: Sys, a: Action)
    requires WaitsRightly(s) && Enabled(s, a)
    ensures WaitsRightly(Apply(s, a))
  {
  }

  lemma {:induction false} RunWaitsRightly(s: Sys, script: seq<Action>)
    requires WaitsRightly(s) && Admits(s, script)
    ensures WaitsRightly(Exec(s, script))
    decreases |script|
  {
    if script != [] {
      StepWaitsRightly(s, script[0]);
      RunWaitsRightly(Apply(s, script[0]), script[1..]);
    }
  }

  /** A call that nothing but a state change, a timeout or a cancellation can move. */
  ghost predicate Stuck(s: Sys, id: nat) {
    id in s.calls && s.calls[id].phase.Asleep? && !Enabled(s, Wake(id))
  }

  /**
   No lost wake-up, in every reachable state: a sender that sleeps without a pending wake-up faces a
   full open buffer, a receiver an empty open one; so both kinds never sleep at once, and once the
   channel is closed nobody sleeps.
   */
  lemma NoLostWakeup(maxSize: nat, script: seq<Action>)
    requires maxSize > 0 && Admits(Empty(maxSize), script)
    ensures var s := Exec(Empty(maxSize), script);
            && (forall id :: Stuck(s, id) && s.calls[id].Sender? ==> |s.chan.buffer| == maxSize && !s.chan.closed)
            && (forall id :: Stuck(s, id) && s.calls[id].Receiver? ==> s.chan.buffer == [] && !s.chan.closed)
            && (forall i, j :: Stuck(s, i) && Stuck(s, j) ==> s.calls[i].Sender? == s.calls[j].Sender?)
            && (s.chan.closed ==> forall id :: !Stuck(s, id))
  {
    RunWaitsRightly(Empty(maxSize), script);
    RunKeepsSize(Empty(maxSize), script);
    var s := Exec(Empty(maxSize), script);
    forall id | Stuck(s, id)
      ensures Remembers(s.calls[id].phase, s.chan.gen)
    {
    }
  }

  lemma {:induction false} RunKeepsSize(s: Sys, script: seq<Action>)
    requires Admits(s, script)
    ensures Exec(s, script).chan.maxSize == s.chan.maxSize
    decreases |script|
  {
    if script != [] {
      RunKeepsSize(Apply(s, script[0]), script[1..]);
    }
  }

  /**
   A call whose operation has become possible is never left asleep: some step of its own is enabled,
   and its next critical section, taken now, does not send it back to wait.
   */
  lemma PossibleMeansAwake(s: Sys, id: nat)
    requires WaitsRightly(s) && id in s.calls && !s.calls[id].phase.Returned?
    requires s.chan.closed || (if s.calls[id].Sender? then |s.chan.buffer| < s.chan.maxSize else s.chan.buffer != [])
    ensures Enabled(s, TryOnce(id)) || Enabled(s, Select(id)) || Enabled(s, Wake(id))
    ensures Enabled(s, TryOnce(id)) ==> Apply(s, TryOnce(id)).calls[id].phase.Returned?
  {
  }

  // ---------------------------------------------------------------- what a critical section decides

  /**
   A sender at an open channel with room is served at once, its message last in the buffer and in the
   log; at a closed one it is refused; at a full one it goes on to wait for the current generation.
   Nothing but an accepted message changes the channel, and no other call is touched.
   */
  lemma SendDecides(s: Sys, id: nat)
    requires Enabled(s, TryOnce(id)) && s.calls[id].Sender?
    ensures var s', m := Apply(s, TryOnce(id)), s.calls[id].message;
            && (s.chan.closed ==> s'.calls[id].phase == Returned(Failure(ChannelClosed)) && s'.chan == s.chan)
            && (!s.chan.closed && |s.chan.buffer| < s.chan.maxSize ==>
                  && s'.calls[id].phase == Returned(Success(Sent(|s.chan.accepted|)))
                  && s'.chan.buffer == s.chan.buffer + [m] && s'.chan.accepted == s.chan.accepted + [m]
                  && s'.chan.taken == s.chan.taken && !s'.chan.closed && s'.chan.gen == s.chan.gen + 1)
            && (!s.chan.closed && |s.chan.buffer| >= s.chan.maxSize ==>
                  s'.calls[id].phase == Checking(s.chan.gen) && s'.chan == s.chan)
            && s'.calls[id].message == m && s'.calls - {id} == s.calls - {id}
  {
  }

  /**
   A receiver at a non-empty buffer is handed its first message, closed or not; at an empty one it is
   told that the channel is closed, or goes on to wait for the current generation.
   */
  lemma ReceiveDecides(s: Sys, id: nat)
    requires Enabled(s, TryOnce(id)) && s.calls[id].Receiver?
    ensures var s' := Apply(s, TryOnce(id));
            && (s.chan.buffer != [] ==>
                  && s'.calls[id].phase == Returned(Success(Received(s.chan.buffer[0], |s.chan.taken|)))
                  && s.chan.buffer == [s.chan.buffer[0]] + s'.chan.buffer
                  && s'.chan.taken == s.chan.taken + [s.chan.buffer[0]] && s'.chan.accepted == s.chan.accepted
                  && s'.chan.closed == s.chan.closed && s'.chan.gen == s.chan.gen + 1)
            && (s.chan.buffer == [] && s.chan.closed ==>
                  s'.calls[id].phase == Returned(Failure(ChannelClosed)) && s'.chan == s.chan)
            && (s.chan.buffer == [] && !s.chan.closed ==>
                  s'.calls[id].phase == Checking(s.chan.gen) && s'.chan == s.chan)
            && s'.calls - {id} == s.calls - {id}
  {
  }

  /** A critical section tells its caller that the channel is closed iff it is and there is nothing to hand out. */
  lemma ClosedIsReported(s: Sys, id: nat)
    requires Enabled(s, TryOnce(id))
    ensures Apply(s, TryOnce(id)).calls[id].phase == Returned(Failure(ChannelClosed)) <==>
              s.chan.closed && (s.calls[id].Receiver? ==> s.chan.buffer == [])
  {
    if s.calls[id].Sender? {
      SendDecides(s, id);
    } else {
      ReceiveDecides(s, id);
    }
  }

  /** A call of `Send` is checked before it reaches the channel; `Close` and `Clear` say what they do. */
  lemma CallsBegin(s: Sys, id: nat, m: Message)
    requires id !in s.calls
    ensures var s' := Apply(s, CallSend(id, m));
            && s'.chan == s.chan && s'.calls[id].message == m
            && (s'.calls[id].phase == Trying <==> m.id != "" && m.kind != "" && m.source != "" && m.target != "")
            && (s'.calls[id].phase != Trying ==> s'.calls[id].phase == Returned(Failure(Validate(m).value)))
    ensures Apply(s, CallReceive(id)) == s.(calls := s.calls[id := Receiver(Trying)])
    ensures var c := Apply(s, Close).chan;
            c.closed && c.buffer == s.chan.buffer && c.gen == s.chan.gen + (if s.chan.closed then 0 else 1)
    ensures var c := Apply(s, Clear).chan;
            c.buffer == [] && c.taken == s.chan.taken + s.chan.buffer && c.gen == s.chan.gen + 1
            && c.closed == s.chan.closed
  {
    ValidateMeans(m);
  }

  /**
   Where a call stands decides its next step: before the lock, the critical section; after it, the
   select; in the select, a wake-up once the remembered generation is over. Only there and before it a
   timeout or a cancellation ends the call, with that error. A call that has returned takes no step.
   */
  lemma StepsOfACall(s: Sys, id: nat, err: ChannelError)
    requires id in s.calls
    ensures match s.calls[id].phase
            case Trying => Enabled(s, TryOnce(id)) && !Enabled(s, GiveUp(id, err))
            case Checking(g) =>
              && Enabled(s, Select(id)) && Apply(s, Select(id)).calls[id].phase == Asleep(g)
              && Apply(s, Select(id)).chan == s.chan
            case Asleep(g) =>
              && (Enabled(s, Wake(id)) <==> g < s.chan.gen) && !Enabled(s, TryOnce(id)) && !Enabled(s, Select(id))
              && (Enabled(s, Wake(id)) ==>
                    Apply(s, Wake(id)).calls[id].phase == Trying && Apply(s, Wake(id)).chan == s.chan)
            case Returned(_) =>
              && !Enabled(s, TryOnce(id)) && !Enabled(s, Select(id)) && !Enabled(s, Wake(id))
              && !Enabled(s, GiveUp(id, err))
    ensures Enabled(s, GiveUp(id, err)) ==>
              && err in {TimedOut, Cancelled} && Apply(s, GiveUp(id, err)).chan == s.chan
              && Apply(s, GiveUp(id, err)).calls[id].phase == Returned(Failure(err))
    ensures (s.calls[id].phase.Checking? || s.calls[id].phase.Asleep?) && err in {TimedOut, Cancelled} ==>
              Enabled(s, GiveUp(id, err))
  {
  }

  // ---------------------------------------------------------------- the log

  /** A successful call names the place of its message in the log. */
  ghost predicate CallLogged(c: Chan, call: Call) {
    call.phase.Returned? && call.phase.result.Success? ==>
      match call.phase.result.value
      case Sent(i) => call.Sender? && i < |c.accepted| && c.accepted[i] == call.message
      case Received(m, i) => call.Receiver? && i < |c.taken| && c.taken[i] == m
      case _ => false
  }

  ghost predicate Served(s: Sys, id: nat) {
    && id in s.calls && s.calls[id].phase.Returned? && s.calls[id].phase.result.Success?
    && (s.calls[id].phase.result.value.Sent? || s.calls[id].phase.result.value.Received?)
  }

  /** The position in the log of the message that a successful call sent or received. */
  ghost function Place(s: Sys, id: nat): nat
    requires Served(s, id)
  {
    s.calls[id].phase.result.value.index
  }

  ghost predicate PlacesDiffer(s: Sys) {
    forall i, j :: Served(s, i) && Served(s, j) && i != j && s.calls[i].Sender? == s.calls[j].Sender? ==>
        Place(s, i) != Place(s, j)
  }

  /** First in, first out, each message once: the log of departures is a prefix of that of arrivals. */
  ghost predicate Logged(s: Sys) {
    && s.chan.accepted == s.chan.taken + s.chan.buffer
    && (forall id :: id in s.calls ==> CallLogged(s.chan, s.calls[id]))
    && PlacesDiffer(s)
  }

  /** Logs only grow, and only an open channel accepts. */
  lemma LogsGrow(s: Sys, a: Action)
    requires Enabled(s, a) && s.chan.accepted == s.chan.taken + s.chan.buffer
    ensures var s' := Apply(s, a);
            && s'.chan.accepted == s'.chan.taken + s'.chan.buffer
            && s.chan.accepted <= s'.chan.accepted && s.chan.taken <= s'.chan.taken
            && (s.chan.closed ==> s'.chan.closed && s'.chan.accepted == s.chan.accepted)
  {
  }

  /** Only a successful critical section serves a call, at the end of the log as it was. */
  lemma NewlyServed(s: Sys, a: Action, id: nat)
    requires Enabled(s, a) && Served(Apply(s, a), id)
    ensures if Served(s, id) then Apply(s, a).calls[id] == s.calls[id]
            else
              && a == TryOnce(id)
              && Place(Apply(s, a), id) == (if s.calls[id].Sender? then |s.chan.accepted| else |s.chan.taken|)
    ensures id in s.calls && Apply(s, a).calls[id].Sender? == s.calls[id].Sender?
  {
  }

  lemma StepCallLogged(s: Sys, a: Action, id: nat)
    requires Logged(s) && Enabled(s, a) && id in Apply(s, a).calls
    ensures CallLogged(Apply(s, a).chan, Apply(s, a).calls[id])
  {
    LogsGrow(s, a);
    if id in s.calls {
      assert CallLogged(s.chan, s.calls[id]);
    }
  }

  lemma StepLogged(s: Sys, a: Action)
    requires Logged(s) && Enabled(s, a)
    ensures Logged(Apply(s, a))
  {
    LogsGrow(s, a);
    forall id | id in Apply(s, a).calls
      ensures CallLogged(Apply(s, a).chan, Apply(s, a).calls[id])
    {
      StepCallLogged(s, a, id);
    }
    forall i, j | Served(Apply(s, a), i) && Served(Apply(s, a), j) && i != j
        && Apply(s, a).calls[i].Sender? == Apply(s, a).calls[j].Sender?
      ensures Place(Apply(s, a), i) != Place(Apply(s, a), j)
    {
      NewlyServed(s, a, i);
      NewlyServed(s, a, j);
      assert CallLogged(s.chan, s.calls[i]) && CallLogged(s.chan, s.calls[j]);
    }
  }

  lemma {:induction false} RunLogged(s: Sys, script: seq<Action>)
    requires Logged(s) && WaitsRightly(s) && Admits(s, script)
    ensures Logged(Exec(s, script)) && WaitsRightly(Exec(s, script))
    decreases |script|
  {
    if script != [] {
      StepLogged(s, script[0]);
      StepWaitsRightly(s, script[0]);
      RunLogged(Apply(s, script[0]), script[1..]);
    }
  }

  /**
   Bounded FIFO, over every interleaving: what was accepted is what was taken followed by the
   buffer, which never exceeds its capacity; the receiver that took the n-th message got the n-th
   accepted one; and no two receivers, and no two senders, share a message.
   */
  lemma BoundedFifo(maxSize: nat, script: seq<Action>)
    requires maxSize > 0 && Admits(Empty(maxSize), script)
    ensures var s := Exec(Empty(maxSize), script);
            && s.chan.accepted == s.chan.taken + s.chan.buffer && |s.chan.buffer| <= maxSize
            && (forall id :: Served(s, id) && s.calls[id].Receiver? ==>
                  && Place(s, id) < |s.chan.taken|
                  && s.calls[id].phase.result.value == Received(s.chan.accepted[Place(s, id)], Place(s, id)))
            && (forall id :: Served(s, id) && s.calls[id].Sender? ==>
                  Place(s, id) < |s.chan.accepted| && s.chan.accepted[Place(s, id)] == s.calls[id].message)
            && (forall i, j :: Served(s, i) && Served(s, j) && i != j && s.calls[i].Sender? == s.calls[j].Sender?
                  ==> Place(s, i) != Place(s, j))
  {
    RunLogged(Empty(maxSize), script);
    RunKeepsSize(Empty(maxSize), script);
  }

  /**
   After `Close` nothing is accepted; the remaining messages leave in their order; and a receiver is
   told that the channel is closed only when nothing remains.
   */
  lemma ClosedDrains(s: Sys, script: seq<Action>)
    requires Logged(s) && WaitsRightly(s) && s.chan.closed && Admits(s, script)
    ensures var s' := Exec(s, script);
            && s'.chan.closed && s'.chan.accepted == s.chan.accepted
            && s.chan.taken <= s'.chan.taken <= s.chan.taken + s.chan.buffer
            && s'.chan.buffer == s.chan.buffer[|s'.chan.taken| - |s.chan.taken|..]
            && (forall id :: Enabled(s', TryOnce(id)) && s'.calls[id].Receiver? ==>
                  (Apply(s', TryOnce(id)).calls[id].phase == Returned(Failure(ChannelClosed)) <==>
                      s'.chan.buffer == []))
  {
    ClosedKeepsLog(s, script);
    DrainedSuffix(s, Exec(s, script));
  }

  lemma {:induction false} ClosedKeepsLog(s: Sys, script: seq<Action>)
    requires s.chan.accepted == s.chan.taken + s.chan.buffer && s.chan.closed && Admits(s, script)
    ensures var s' := Exec(s, script);
            && s'.chan.closed && s'.chan.accepted == s.chan.accepted == s'.chan.taken + s'.chan.buffer
            && s.chan.taken <= s'.chan.taken
    decreases |script|
  {
    if script != [] {
      LogsGrow(s, script[0]);
      ClosedKeepsLog(Apply(s, script[0]), script[1..]);
    }
  }

  lemma DrainedSuffix(s: Sys, s': Sys)
    requires Logged(s) && s'.chan.accepted == s.chan.accepted == s'.chan.taken + s'.chan.buffer
             && s.chan.taken <= s'.chan.taken
    ensures s'.chan.taken <= s.chan.taken + s.chan.buffer
    ensures |s'.chan.taken| - |s.chan.taken| <= |s.chan.buffer|
    ensures s'.chan.buffer == s.chan.buffer[|s'.chan.taken| - |s.chan.taken|..]
  {
    var all := s.chan.accepted;
    assert s'.chan.buffer == all[|s'.chan.taken|..];
    assert s.chan.buffer == all[|s.chan.taken|..];
  }

  // ---------------------------------------------------------------- the object

  /** A Go channel that is only ever closed. */
  class Signal {
    var closed: bool

    constructor ()
      ensures !closed
    {
      closed := false;
    }
  }

  /** What the caller of one pass can see of it. */
  datatype Pass = Delivered | Got(message: Message) | ErrClosed | Retry

  ghost function Visible(a: Attempt): Pass {
    match a
    case Sent(_) => Delivered
    case Received(m, _) => Got(m)
    case Refused => ErrClosed
    case MustWait(_) => Retry
  }

  const DEFAULT_MAX_SIZE: nat := 1000

  class Channel {
    var buffer: seq<Message>
    const maxSize: nat
    var closed: bool
    var notify: Signal
    ghost var generations: seq<Signal>
    ghost var accepted: seq<Message>
    ghost var taken: seq<Message>

    /** All earlier notify channels are closed, the current one is open. */
    ghost predicate Valid()
      reads this, generations
    {
      && maxSize > 0 && generations != [] && notify == generations[|generations| - 1] && !notify.closed
      && (forall g :: 0 <= g < |generations| - 1 ==> generations[g].closed)
      && (forall g, h :: 0 <= g < h < |generations| ==> generations[g] != generations[h])
    }

    ghost function View(): Chan
      requires generations != []
      reads this
    {
      Chan(buffer, maxSize, closed, |generations| - 1, accepted, taken)
    }

    constructor (size: int)
      ensures Valid() && View() == Empty(if size <= 0 then DEFAULT_MAX_SIZE else size).chan
      ensures buffer == [] && !closed && maxSize == if size > 0 then size else 1000
      ensures forall g :: g in generations ==> fresh(g)
    {
      buffer, closed, accepted, taken := [], false, [], [];
      maxSize := if size <= 0 then DEFAULT_MAX_SIZE else size;
      var first := new Signal();
      notify := first;
      generations := [first];
    }

    /** Broadcast: a new notify channel, then the old one is closed. */
    method SignalAll()
      requires Valid()
      modifies `notify, `generations, notify
      ensures Valid() && |generations| == |old(generations)| + 1
              && generations[..|old(generations)|] == old(generations)
      ensures fresh(notify)
    {
      var old_ := notify;
      var next := new Signal();
      notify := next;
      generations := generations + [next];
      old_.closed := true;
    }

    /** One pass of the loop in `Send`, from lock to unlock; a waiter keeps the notify channel it saw. */
    method SendOnce(m: Message) returns (pass: Pass, ch: Signal, ghost attempt: Attempt)
      requires Valid()
      modifies this, notify
      ensures Valid() && pass == Visible(attempt)
      ensures (View(), attempt) == TrySend(old(View()), m)
      ensures pass == if old(closed) then ErrClosed else if |old(buffer)| < maxSize then Delivered else Retry
      ensures buffer == (if pass == Delivered then old(buffer) + [m] else old(buffer)) && closed == old(closed)
      ensures attempt.MustWait? ==> ch == generations[attempt.gen] && !ch.closed
    {
      ch := notify;
      if closed {
        return ErrClosed, ch, Refused;
      }
      if |buffer| < maxSize {
        buffer := buffer + [m];
        attempt := Sent(|accepted|);
        accepted := accepted + [m];
        SignalAll();
        return Delivered, ch, attempt;
      }
      return Retry, ch, MustWait(|generations| - 1);
    }

    /** One pass of the loop in `Receive`. */
    method ReceiveOnce() returns (pass: Pass, ch: Signal, ghost attempt: Attempt)
      requires Valid()
      modifies this, notify
      ensures Valid() && pass == Visible(attempt)
      ensures (View(), attempt) == TryReceive(old(View()))
      ensures old(buffer) != [] ==> pass == Got(old(buffer)[0]) && old(buffer) == [old(buffer)[0]] + buffer
      ensures old(buffer) == [] ==> buffer == [] && pass == if old(closed) then ErrClosed else Retry
      ensures closed == old(closed)
      ensures attempt.MustWait? ==> ch == generations[attempt.gen] && !ch.closed
    {
      ch := notify;
      if |buffer| > 0 {
        var message := buffer[0];
        attempt := Received(message, |taken|);
        taken := taken + [message];
        buffer := buffer[1..];
        SignalAll();
        return Got(message), ch, attempt;
      }
      if closed {
        return ErrClosed, ch, Refused;
      }
      return Retry, ch, MustWait(|generations| - 1);
    }

    method Close()
      requires Valid()
      modifies this, notify
      ensures Valid() && View() == CloseChan(old(View()))
      ensures closed && buffer == old(buffer) && (notify == old(notify) <==> old(closed))
    {
      if !closed {
        closed := true;
        SignalAll();
      }
    }

    method Clear()
      requires Valid()
      modifies this, notify
      ensures Valid() && View() == ClearChan(old(View()))
      ensures buffer == [] && closed == old(closed) && notify != old(notify)
    {
      taken := taken + buffer;
      buffer := [];
      SignalAll();
    }

    /** A remembered notify channel is closed exactly when its generation is over: the `Wake` guard. */
    lemma WakeGuard(s: Sys, id: nat, g: nat)
      requires Valid() && g < |generations| && s.chan == View() && id in s.calls && s.calls[id].phase == Asleep(g)
      ensures generations[g].closed <==> Enabled(s, Wake(id))
      ensures generations[g].closed <==> g < |generations| - 1
    {
    }
  }
}
