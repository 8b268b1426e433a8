/** Request/response correlation of the agent client on one bidirectional stream: any number of
    requesters, the goroutine that runs the stream, and stream closing interleave at the granularity of
    the client's two mutexes and of single channel operations. */
module Correlation {
  import opened Actions

  datatype Message = Message(id: string, welcome: bool, body: string)

  /** A one-slot channel. `sends` and `closes` count the operations ever done on it. */
  datatype Channel = Channel(slot: Option<Message>, closed: bool, sends: nat, closes: nat)

  const EMPTY := Channel(None, false, 0, 0)

  predicate ReadyToReceive(c: Channel) {
    c.slot.Some? || c.closed
  }

  /** A send on a closed channel panics and a send on a full one blocks. */
  predicate CanSend(c: Channel) {
    c.slot.None? && !c.closed
  }

  type Pending = map<string, nat>
  type Channels = map<nat, Channel>

  // The critical sections as changes of the table and the channels; the object below carries them out, and
  // the system steps through them.

  function Entered(pending: Pending, id: string, ch: nat): Pending {
    pending[id := ch]
  }

  function Opened(chans: Channels, ch: nat): Channels {
    chans[ch := EMPTY]
  }

  function Forgotten(pending: Pending, id: string): Pending {
    pending - {id}
  }

  function Found(pending: Pending, id: string): Option<nat> {
    if id in pending then Some(pending[id]) else None
  }

  function Shut(c: Channel): Channel {
    c.(closed := true, closes := c.closes + 1)
  }

  function Closed(chans: Channels, which: set<nat>): Channels {
    map c | c in chans :: if c in which then Shut(chans[c]) else chans[c]
  }

  ghost predicate Injective(pending: Pending) {
    forall i, j :: i in pending && j in pending && pending[i] == pending[j] ==> i == j
  }

  /** `shut` and the channels of `rest` divide the channels of `all`. */
  ghost predicate Divides(all: Pending, rest: Pending, shut: set<nat>) {
    Injective(rest) && shut + rest.Values == all.Values && shut !! rest.Values
  }

  lemma DivideNothing(all: Pending, chans: Channels)
    requires Injective(all)
    ensures Divides(all, all, {}) && Closed(chans, {}) == chans
  {
  }

  lemma DivideAll(all: Pending, shut: set<nat>)
    requires Divides(all, map[], shut)
    ensures shut == all.Values
  {
    var none: Pending := map[];
    assert none.Values == {};
  }

  lemma DivideOneMore(all: Pending, rest: Pending, shut: set<nat>, id: string)
    requires Divides(all, rest, shut) && id in rest
    ensures rest[id] in all.Values && rest[id] !in shut
    ensures Divides(all, rest - {id}, shut + {rest[id]})
  {
    var left := rest - {id};
    assert rest[id] in rest.Values;
    assert left.Values == rest.Values - {rest[id]} by {
      forall v | v in rest.Values && v != rest[id] ensures v in left.Values {
        var i :| i in rest && rest[i] == v;
        assert left[i] == v;
      }
    }
  }

  lemma CloseOneMore(chans: Channels, which: set<nat>, c: nat)
    requires c in chans && c !in which
    ensures c in Closed(chans, which)
    ensures Closed(chans, which + {c}) == Closed(chans, which)[c := Shut(Closed(chans, which)[c])]
  {
  }

  /** The pending table as the client keeps it; each method is one critical section of its mutex. */
  class PendingTable {
    var pending: Pending
    var chans: Channels

    constructor ()
      ensures pending == map[] && chans == map[]
    {
      pending, chans := map[], map[];
    }

    method RegisterPending(id: string, channel: nat)
      requires channel !in chans
      modifies this
      ensures pending == Entered(old(pending), id, channel) && chans == Opened(old(chans), channel)
    {
      chans := chans[channel := EMPTY];
      pending := pending[id := channel];
    }

    method UnregisterPending(id: string)
      modifies this
      ensures pending == Forgotten(old(pending), id) && chans == old(chans)
    {
      pending := pending - {id};
    }

    /** The locked part of delivery: look up and forget in one section. */
    method TakePending(id: string) returns (channel: Option<nat>)
      modifies this
      ensures pending == Forgotten(old(pending), id) && chans == old(chans)
      ensures channel == Found(old(pending), id)
    {
      channel := if id in pending then Some(pending[id]) else None;
      pending := pending - {id};
    }

    /** Closes and forgets every pending channel, in any order. Distinct identifiers hold distinct channels. */
    method CloseAll()
      requires Injective(pending) && pending.Values <= chans.Keys
      modifies this
      ensures pending == map[] && chans == Closed(old(chans), old(pending).Values)
    {
      hide Divides, Closed, Injective;
      ghost var all, before, shut: set<nat> := pending, chans, {};
      DivideNothing(all, before);
      while pending != map[]
        invariant Divides(all, pending, shut) && chans == Closed(before, shut)
        decreases |pending|
      {
        var id :| id in pending;
        var c := pending[id];
        DivideOneMore(all, pending, shut, id);
        CloseOneMore(before, shut, c);
        chans := chans[c := Shut(chans[c])];
        pending := pending - {id};
        shut := shut + {c};
      }
      DivideAll(all, shut);
    }
  }

  // ---------------------------------------------------------------- the system

  datatype Outcome = Reply(message: Message) | StreamClosed | Cancelled | NotSent

  /** Where a requester is: between registering, reading the stream, sending, waiting and its deferred
      unregistration. */
  datatype Requester =
    | Registered(ch: nat)
    | HasStream(ch: nat)
    | Waiting(ch: nat)
    | Leaving(ch: nat, outcome: Outcome)
    | Finished(ch: nat, outcome: Outcome)

  /** Where the goroutine that owns the stream is. `Locked` holds the stream mutex while closing. */
  datatype Runner =
    | Stopped
    | Receiving
    | Holding(ch: nat, message: Message)
    | Exiting
    | Locked(closedAll: bool)

  /** `connected` tells whether the stream field is set; `owner` is the request each channel was made for. */
  datatype System = System(
    connected: bool, pending: Pending, chans: Channels, runner: Runner,
    requesters: map<string, Requester>, owner: map<nat, string>)

  datatype Step =
    | Register(id: string, ch: nat)
    | ReadStream(id: string)
    | SendSucceeds(id: string)
    | SendFails(id: string)
    | TakeReply(id: string)
    | Cancel(id: string)
    | Unregister(id: string)
    | RunStarts
    | MessageArrives(message: Message)
    | Deliver
    | StreamFails
    | LockStream
    | ClosePending
    | ClearStream

  predicate Enabled(s: System, st: Step) {
    match st
    case Register(id, ch) => id !in s.requesters && ch !in s.chans
    case ReadStream(id) => id in s.requesters && s.requesters[id].Registered? && !s.runner.Locked?
    case SendSucceeds(id) => id in s.requesters && s.requesters[id].HasStream?
    case SendFails(id) => id in s.requesters && s.requesters[id].HasStream?
    case TakeReply(id) =>
      && id in s.requesters && s.requesters[id].Waiting? && s.requesters[id].ch in s.chans
      && ReadyToReceive(s.chans[s.requesters[id].ch])
    case Cancel(id) => id in s.requesters && s.requesters[id].Waiting?
    case Unregister(id) => id in s.requesters && s.requesters[id].Leaving?
    case RunStarts => s.runner.Stopped? && !s.connected
    case MessageArrives(_) => s.runner.Receiving?
    case Deliver => s.runner.Holding? && s.runner.ch in s.chans && CanSend(s.chans[s.runner.ch])
    case StreamFails => s.runner.Receiving?
    case LockStream => s.runner.Exiting?
    case ClosePending => s.runner == Locked(false)
    case ClearStream => s.runner == Locked(true)
  }

  function Apply(s: System, st: Step): System
    requires Enabled(s, st)
  {
    match st
    case Register(id, ch) =>
      s.(pending := Entered(s.pending, id, ch), chans := Opened(s.chans, ch),
         requesters := s.requesters[id := Registered(ch)], owner := s.owner[ch := id])
    case ReadStream(id) =>
      var ch := s.requesters[id].ch;
      s.(requesters := s.requesters[id := if s.connected then HasStream(ch) else Leaving(ch, NotSent)])
    case SendSucceeds(id) => s.(requesters := s.requesters[id := Waiting(s.requesters[id].ch)])
    case SendFails(id) => s.(requesters := s.requesters[id := Leaving(s.requesters[id].ch, NotSent)])
    case TakeReply(id) =>
      var ch := s.requesters[id].ch;
      var c := s.chans[ch];
      if c.slot.Some? then
        s.(chans := s.chans[ch := c.(slot := None)], requesters := s.requesters[id := Leaving(ch, Reply(c.slot.value))])
      else s.(requesters := s.requesters[id := Leaving(ch, StreamClosed)])
    case Cancel(id) => s.(requesters := s.requesters[id := Leaving(s.requesters[id].ch, Cancelled)])
    case Unregister(id) =>
      s.(pending := Forgotten(s.pending, id),
         requesters := s.requesters[id := Finished(s.requesters[id].ch, s.requesters[id].outcome)])
    case RunStarts => s.(connected := true, runner := Receiving)
    case MessageArrives(m) =>
      var found := Found(s.pending, m.id);
      if found.Some? then s.(pending := Forgotten(s.pending, m.id), runner := Holding(found.value, m))
      else if m.welcome then s
      else s.(runner := Exiting)
    case Deliver =>
      var c := s.chans[s.runner.ch];
      s.(chans := s.chans[s.runner.ch := c.(slot := Some(s.runner.message), sends := c.sends + 1)], runner := Receiving)
    case StreamFails => s.(runner := Exiting)
    case LockStream => s.(runner := Locked(false))
    case ClosePending => s.(pending := map[], chans := Closed(s.chans, s.pending.Values), runner := Locked(true))
    case ClearStream => s.(connected := false, runner := Stopped)
  }

  // ---------------------------------------------------------------- invariant

  /** A channel got at most one message or one close, and a message in it answers its own request. */
  ghost predicate ChannelsOk(chans: Channels, owner: map<nat, string>) {
    && chans.Keys == owner.Keys
    && forall c :: c in chans ==>
         && chans[c].sends + chans[c].closes <= 1
         && (chans[c].closed <==> chans[c].closes == 1)
         && (chans[c].slot.Some? ==> chans[c].sends == 1 && chans[c].slot.value.id == owner[c])
  }

  ghost predicate Owns(owner: map<nat, string>, c: nat, id: string) {
    c in owner && owner[c] == id
  }

  ghost predicate Untouched(chans: Channels, c: nat) {
    c in chans && chans[c] == EMPTY
  }

  /** A pending entry leads to the untouched channel of its own request. */
  ghost predicate PendingEntryOk(s: System, id: string)
    requires id in s.pending
  {
    && id in s.requesters && s.requesters[id].ch == s.pending[id] && !s.requesters[id].Finished?
    && Untouched(s.chans, s.pending[id]) && Owns(s.owner, s.pending[id], id)
  }

  ghost predicate PendingOk(s: System) {
    forall id :: id in s.pending ==> PendingEntryOk(s, id)
  }

  predicate Active(r: Requester) {
    r.Registered? || r.HasStream? || r.Waiting?
  }

  /** A requester that still expects something will get it: its channel is ready, or a reply for it is in
      hand, or it is still in the pending table. */
  ghost predicate Reachable(chans: Channels, runner: Runner, pending: Pending, id: string, ch: nat) {
    || (ch in chans && ReadyToReceive(chans[ch]))
    || (runner.Holding? && runner.ch == ch)
    || id in pending
  }

  ghost predicate RequesterOk(s: System, id: string, r: Requester) {
    && Owns(s.owner, r.ch, id)
    && (Active(r) ==> Reachable(s.chans, s.runner, s.pending, id, r.ch))
    && ((r.Leaving? || r.Finished?) && r.outcome.Reply? ==> r.outcome.message.id == id)
  }

  ghost predicate RequestersOk(s: System) {
    forall id :: id in s.requesters ==> RequesterOk(s, id, s.requesters[id])
  }

  ghost predicate RunnerOk(s: System) {
    && (s.connected <==> !s.runner.Stopped?)
    && (s.runner.Holding? ==>
          && Untouched(s.chans, s.runner.ch) && Owns(s.owner, s.runner.ch, s.runner.message.id)
          && s.runner.message.id in s.requesters && s.runner.message.id !in s.pending
          && s.requesters[s.runner.message.id].ch == s.runner.ch)
  }

  /** Once the pending channels are closed and until the next stream, no requester that saw the stream is
      left in the pending table. */
  ghost predicate ClosedOk(s: System) {
    s.runner.Stopped? || s.runner == Locked(true) ==>
      forall id :: id in s.pending && id in s.requesters ==> !s.requesters[id].HasStream? && !s.requesters[id].Waiting?
  }

  ghost predicate Inv(s: System) {
    ChannelsOk(s.chans, s.owner) && PendingOk(s) && RunnerOk(s) && ClosedOk(s) && RequestersOk(s)
  }

  ghost predicate Init(s: System) {
    && !s.connected && s.pending == map[] && s.chans == map[] && s.runner == Stopped
    && s.requesters == map[] && s.owner == map[]
  }

  lemma ClosePendingOk(s: System)
    requires Inv(s) && s.runner == Locked(false)
    ensures Inv(Apply(s, ClosePending))
  {
    var s' := Apply(s, ClosePending);
    forall c | c in s.pending.Values ensures Untouched(s.chans, c) {
      var id :| id in s.pending && s.pending[id] == c;
    }
    assert ChannelsOk(s'.chans, s'.owner);
    forall id | id in s.requesters ensures RequesterOk(s', id, s.requesters[id]) {
      assert RequesterOk(s, id, s.requesters[id]);
      if id in s.pending { assert s.pending[id] in s.pending.Values; }
    }
  }

  predicate OfRequester(st: Step) {
    || st.Register? || st.ReadStream? || st.SendSucceeds? || st.SendFails? || st.TakeReply? || st.Cancel?
    || st.Unregister?
  }

  /** What a requester does leaves every other requester as it was. */
  lemma RequestersStep(s: System, st: Step)
    requires ChannelsOk(s.chans, s.owner) && RequestersOk(s) && Enabled(s, st) && OfRequester(st)
    ensures RequestersOk(Apply(s, st))
  {
    hide RequestersOk, PendingOk, RunnerOk, ClosedOk;
    var s' := Apply(s, st);
    if st.id in s.requesters { Holds(s, st.id); }
    forall id | id in s'.requesters ensures RequesterOk(s', id, s'.requesters[id]) {
      if id in s.requesters { Holds(s, id); }
    }
    Gather(s');
  }

  lemma Holds(s: System, id: string)
    requires RequestersOk(s) && id in s.requesters
    ensures RequesterOk(s, id, s.requesters[id])
  {
  }

  lemma Gather(s: System)
    requires forall id :: id in s.requesters ==> RequesterOk(s, id, s.requesters[id])
    ensures RequestersOk(s)
  {
  }

  lemma ChannelsStep(s: System, st: Step)
    requires ChannelsOk(s.chans, s.owner) && Enabled(s, st) && OfRequester(st)
    ensures ChannelsOk(Apply(s, st).chans, Apply(s, st).owner)
  {
    hide ChannelsOk, ReadyToReceive;
    match st {
      case Register(id, ch) => NewChannel(s.chans, s.owner, ch, id);
      case TakeReply(id) => EmptiedChannel(s.chans, s.owner, s.requesters[id].ch);
      case _ =>
    }
  }

  lemma NewChannel(chans: Channels, owner: map<nat, string>, ch: nat, id: string)
    requires ChannelsOk(chans, owner) && ch !in chans
    ensures ChannelsOk(chans[ch := EMPTY], owner[ch := id])
  {
  }

  lemma EmptiedChannel(chans: Channels, owner: map<nat, string>, ch: nat)
    requires ChannelsOk(chans, owner) && ch in chans
    ensures ChannelsOk(chans[ch := chans[ch].(slot := None)], owner)
  {
  }

  lemma PendingStep(s: System, st: Step)
    requires ChannelsOk(s.chans, s.owner) && PendingOk(s) && RequestersOk(s) && Enabled(s, st) && OfRequester(st)
    ensures PendingOk(Apply(s, st))
  {
    hide RequestersOk, Active, Reachable, PendingOk;
    var s' := Apply(s, st);
    if st.id in s.requesters { Holds(s, st.id); }
    forall id | id in s'.pending ensures PendingEntryOk(s', id) {
      if id in s.pending { EntryHolds(s, id); }
    }
    GatherEntries(s');
  }

  lemma RunnerStep(s: System, st: Step)
    requires ChannelsOk(s.chans, s.owner) && RunnerOk(s) && ClosedOk(s) && RequestersOk(s) && Enabled(s, st)
    requires OfRequester(st)
    ensures RunnerOk(Apply(s, st)) && ClosedOk(Apply(s, st))
  {
    hide RequestersOk, Active, Reachable, PendingOk;
    if st.id in s.requesters { Holds(s, st.id); }
  }

  lemma EntryHolds(s: System, id: string)
    requires PendingOk(s) && id in s.pending
    ensures PendingEntryOk(s, id)
  {
  }

  lemma GatherEntries(s: System)
    requires forall id :: id in s.pending ==> PendingEntryOk(s, id)
    ensures PendingOk(s)
  {
  }

  lemma RequesterStepOk(s: System, st: Step)
    requires Inv(s) && Enabled(s, st) && OfRequester(st)
    ensures Inv(Apply(s, st))
  {
    RequestersStep(s, st);
    ChannelsStep(s, st);
    PendingStep(s, st);
    RunnerStep(s, st);
    hide Apply, Enabled, ChannelsOk, PendingOk, RunnerOk, ClosedOk, RequestersOk;
  }

  lemma StepOk(s: System, st: Step)
    requires Inv(s) && Enabled(s, st)
    ensures Inv(Apply(s, st))
  {
    if st.ClosePending? {
      ClosePendingOk(s);
    } else if OfRequester(st) {
      RequesterStepOk(s, st);
    }
  }

  // ---------------------------------------------------------------- whole runs

  ghost predicate ValidRun(s: System, steps: seq<Step>)
    decreases |steps|
  {
    steps == [] || (Enabled(s, steps[0]) && ValidRun(Apply(s, steps[0]), steps[1..]))
  }

  ghost function After(s: System, steps: seq<Step>): System
    requires ValidRun(s, steps)
    decreases |steps|
  {
    if steps == [] then s else After(Apply(s, steps[0]), steps[1..])
  }

  lemma {:induction false} RunOk(s: System, steps: seq<Step>)
    requires Inv(s) && ValidRun(s, steps)
    ensures Inv(After(s, steps))
    decreases |steps|
  {
    hide Inv, Enabled, Apply;
    if steps != [] {
      StepOk(s, steps[0]);
      RunOk(Apply(s, steps[0]), steps[1..]);
    }
  }

  /** Over every interleaving, a channel receives at most one message or one close and never both, and
      what a request gets back carries its own identifier. */
  lemma OneReplyOrOneClose(s: System, steps: seq<Step>)
    requires Init(s) && ValidRun(s, steps)
    ensures var z := After(s, steps);
      && (forall c :: c in z.chans ==> z.chans[c].sends + z.chans[c].closes <= 1)
      && (forall id :: id in z.requesters && z.requesters[id].Finished? && z.requesters[id].outcome.Reply? ==>
            z.requesters[id].outcome.message.id == id)
  {
    RunOk(s, steps);
  }

  /** Delivery never blocks and never panics: whenever a message was taken for a channel, the channel is
      open and its slot is free. */
  lemma DeliveryNeverBlocks(s: System, steps: seq<Step>)
    requires Init(s) && ValidRun(s, steps) && After(s, steps).runner.Holding?
    ensures Enabled(After(s, steps), Deliver)
  {
    RunOk(s, steps);
  }

  /** No requester waits forever on a closed stream: once the stream field is cleared, every waiting
      requester can take its reply or its close at once, and no other one will ever start to wait on it. */
  lemma NobodyWaitsAfterClose(s: System, steps: seq<Step>, id: string)
    requires Init(s) && ValidRun(s, steps) && !After(s, steps).connected && id in After(s, steps).requesters
    ensures var z := After(s, steps);
      && (z.requesters[id].Waiting? ==> Enabled(z, TakeReply(id)))
      && (z.requesters[id].HasStream? ==>
            z.requesters[id].ch in z.chans && ReadyToReceive(z.chans[z.requesters[id].ch]))
      && (z.requesters[id].Registered? ==>
            Enabled(z, ReadStream(id)) && Apply(z, ReadStream(id)).requesters[id].Leaving?)
  {
    RunOk(s, steps);
  }

  /** The closing critical section always finds distinct, open channels to close. */
  lemma CloseAllIsSafe(s: System)
    requires Inv(s)
    ensures Injective(s.pending) && s.pending.Values <= s.chans.Keys
    ensures forall id :: id in s.pending ==> CanSend(s.chans[s.pending[id]])
  {
    hide RequestersOk, RunnerOk, ClosedOk;
    forall id | id in s.pending ensures PendingEntryOk(s, id) { EntryHolds(s, id); }
  }

  lemma AnswerStays(s: System, st: Step, id: string)
    requires Inv(s) && Enabled(s, st) && Enabled(s, TakeReply(id)) && st != TakeReply(id) && st != Cancel(id)
    ensures Enabled(Apply(s, st), TakeReply(id))
  {
    hide PendingOk, ClosedOk, RequestersOk;
    Holds(s, id);
    if OfRequester(st) && st.id in s.requesters { Holds(s, st.id); }
  }

  /** An answer or a close, once there, stays until its requester takes it, whatever everyone else does and
      however many streams come and go. */
  lemma {:induction false} AnswerIsKept(s: System, steps: seq<Step>, id: string)
    requires Inv(s) && ValidRun(s, steps) && Enabled(s, TakeReply(id))
    requires forall k :: 0 <= k < |steps| ==> steps[k] != TakeReply(id) && steps[k] != Cancel(id)
    ensures Enabled(After(s, steps), TakeReply(id))
    decreases |steps|
  {
    hide Inv, Enabled, Apply;
    if steps != [] {
      AnswerStays(s, steps[0], id);
      StepOk(s, steps[0]);
      AnswerIsKept(Apply(s, steps[0]), steps[1..], id);
    }
  }

  /** The channel of a requester holds this message. */
  ghost predicate Answered(s: System, id: string, m: Message) {
    && id in s.requesters && s.requesters[id].Waiting? && s.requesters[id].ch in s.chans
    && s.chans[s.requesters[id].ch].slot == Some(m)
  }

  lemma AnsweredStays(s: System, st: Step, id: string, m: Message)
    requires Inv(s) && Enabled(s, st) && Answered(s, id, m) && st != TakeReply(id) && st != Cancel(id)
    ensures Answered(Apply(s, st), id, m)
  {
    hide RequestersOk, ClosedOk;
    Holds(s, id);
    if OfRequester(st) && st.id in s.requesters { Holds(s, st.id); }
  }

  lemma {:induction false} AnsweredRun(s: System, steps: seq<Step>, id: string, m: Message)
    requires Inv(s) && ValidRun(s, steps) && Answered(s, id, m)
    requires forall k :: 0 <= k < |steps| ==> steps[k] != TakeReply(id) && steps[k] != Cancel(id)
    ensures Answered(After(s, steps), id, m)
    decreases |steps|
  {
    hide Inv, Enabled, Apply, Answered;
    if steps != [] {
      AnsweredStays(s, steps[0], id, m);
      StepOk(s, steps[0]);
      AnsweredRun(Apply(s, steps[0]), steps[1..], id, m);
    }
  }

  /** A reply reaches its requester: once a message for a waiting requester is delivered, whatever happens
      before the requester looks, it gets exactly that message. */
  lemma DeliveredIsReturned(s: System, steps: seq<Step>, between: seq<Step>)
    requires Init(s) && ValidRun(s, steps) && After(s, steps).runner.Holding? && Enabled(After(s, steps), Deliver)
    requires var z := After(s, steps); var id := z.runner.message.id;
      && id in z.requesters && z.requesters[id].Waiting? && ValidRun(Apply(z, Deliver), between)
      && forall k :: 0 <= k < |between| ==> between[k] != TakeReply(id) && between[k] != Cancel(id)
    ensures var z := After(s, steps); var m := z.runner.message; var y := After(Apply(z, Deliver), between);
      && Enabled(y, TakeReply(m.id))
      && Apply(y, TakeReply(m.id)).requesters[m.id] == Leaving(y.requesters[m.id].ch, Reply(m))
  {
    hide After, ValidRun;
    RunOk(s, steps);
    var z := After(s, steps);
    var m := z.runner.message;
    StepOk(z, Deliver);
    Holds(z, m.id);
    var z1 := Apply(z, Deliver);
    DeliveredTo(z);
    hide Inv;
    AnsweredRun(z1, between, m.id, m);
  }

  lemma DeliveredTo(z: System)
    requires Inv(z) && Enabled(z, Deliver)
    requires var id := z.runner.message.id; id in z.requesters && z.requesters[id].Waiting?
    ensures Answered(Apply(z, Deliver), z.runner.message.id, z.runner.message)
  {
    hide PendingOk, ClosedOk, RequestersOk;
    Holds(z, z.runner.message.id);
  }

  /** Nothing is left behind: an entry of the pending table belongs to a request that has not finished. */
  lemma NothingLeaks(s: System, steps: seq<Step>, id: string)
    requires Init(s) && ValidRun(s, steps) && id in After(s, steps).pending
    ensures id in After(s, steps).requesters && !After(s, steps).requesters[id].Finished?
  {
    hide After, ValidRun, RequestersOk, RunnerOk, ClosedOk;
    InitOk(s);
    RunOk(s, steps);
    EntryHolds(After(s, steps), id);
  }

  lemma InitOk(s: System)
    requires Init(s)
    ensures Inv(s)
  {
  }

  /** How a request ends otherwise: refused without a stream or when sending fails, cancelled by its caller, or
      told that the stream closed when its channel was closed empty; and the answer is kept while leaving. */
  lemma OtherEndings(s: System, id: string)
    requires id in s.requesters
    ensures s.requesters[id].HasStream? ==>
      && Enabled(s, SendFails(id)) && Enabled(s, SendSucceeds(id))
      && Apply(s, SendFails(id)).requesters[id] == Leaving(s.requesters[id].ch, NotSent)
      && Apply(s, SendSucceeds(id)).requesters[id] == Waiting(s.requesters[id].ch)
    ensures s.requesters[id].Waiting? ==>
      Enabled(s, Cancel(id)) && Apply(s, Cancel(id)).requesters[id] == Leaving(s.requesters[id].ch, Cancelled)
    ensures Enabled(s, TakeReply(id)) && s.chans[s.requesters[id].ch].slot.None? ==>
      && s.chans[s.requesters[id].ch].closed
      && Apply(s, TakeReply(id)).requesters[id] == Leaving(s.requesters[id].ch, StreamClosed)
    ensures s.requesters[id].Leaving? ==>
      && Enabled(s, Unregister(id)) && id !in Apply(s, Unregister(id)).pending
      && Apply(s, Unregister(id)).requesters[id] == Finished(s.requesters[id].ch, s.requesters[id].outcome)
  {
  }

  /** A message nobody waits for is tolerated only if it is a welcome; anything else ends the stream. */
  lemma UncorrelatedMessages(s: System, m: Message)
    requires s.runner.Receiving? && m.id !in s.pending
    ensures Enabled(s, MessageArrives(m))
    ensures Apply(s, MessageArrives(m)) == if m.welcome then s else s.(runner := Exiting)
  {
  }
}
