/**
  The stream manager as an object, and the future that delivers one frame to a
  stream (muxado/src/stream_manager.rs).
*/
module ManagerObjects {
  import opened Wrappers
  import opened Constrained
  import opened MuxErrors
  import opened Frames
  import opened StreamOutput
  import opened StreamManagers
  import opened Endpoints
  import opened EndpointTheorems

  /** A map entry: the book-keeping, the channel to the stream, the closer of its sink. */
  datatype Entry = Entry(handle: Handle, toStream: Channel, closer: SinkCloser)

  /** A pending receiver. */
  datatype Task = Task(id: StreamID, recv: Channel)

  function Ids(ts: seq<Task>): (ids: seq<StreamID>)
    ensures |ids| == |ts| && forall i :: 0 <= i < |ts| ==> ids[i] == ts[i].id
  {
    seq(|ts|, i requires 0 <= i < |ts| => ts[i].id)
  }

  function TaskIds(ts: seq<Task>): multiset<StreamID> {
    multiset(Ids(ts))
  }

  lemma TaskIdsAppend(a: seq<Task>, b: seq<Task>)
    ensures TaskIds(a + b) == TaskIds(a) + TaskIds(b)
  {
    assert Ids(a + b) == Ids(a) + Ids(b);
  }

  lemma TaskIdsPush(ts: seq<Task>, t: Task)
    ensures TaskIds(ts + [t]) == TaskIds(ts) + multiset{t.id}
  {
    TaskIdsAppend(ts, [t]);
    assert Ids([t]) == [t.id];
  }

  function Without(ts: seq<Task>, k: nat): seq<Task>
    requires k < |ts|
  {
    ts[..k] + ts[k + 1..]
  }

  lemma TaskIdsWithout(ts: seq<Task>, k: nat)
    requires k < |ts|
    ensures TaskIds(ts) == TaskIds(Without(ts, k)) + multiset{ts[k].id}
    ensures TaskIds(Without(ts, k)) == TaskIds(ts) - multiset{ts[k].id}
  {
    hide TaskIds;
    assert ts == ts[..k] + [ts[k]] + ts[k + 1..];
    TaskIdsPush(ts[..k], ts[k]);
    TaskIdsAppend(ts[..k] + [ts[k]], ts[k + 1..]);
    TaskIdsAppend(ts[..k], ts[k + 1..]);
  }

  function Handles(streams: map<StreamID, Entry>): (m: map<StreamID, Handle>)
    ensures m.Keys == streams.Keys && forall id :: id in streams ==> m[id] == streams[id].handle
  {
    map id | id in streams :: streams[id].handle
  }

  lemma HandlesUpdate(streams: map<StreamID, Entry>, id: StreamID, e: Entry)
    ensures Handles(streams[id := e]) == Handles(streams)[id := e.handle]
    ensures Handles(streams - {id}) == Handles(streams) - {id}
  {
  }

  lemma HandlesNone()
    ensures Handles(map[]) == map[]
  {
  }

  /** The map and the tasks after the task at position `k` was polled with outcome `o`. */
  function StreamsAfter(streams: map<StreamID, Entry>, id: StreamID, o: TaskOutcome): map<StreamID, Entry>
    requires id in streams
  {
    if o.handle.Some? then streams[id := streams[id].(handle := o.handle.value)] else streams - {id}
  }

  function TasksAfter(tasks: seq<Task>, k: nat, o: TaskOutcome): seq<Task>
    requires k < |tasks|
  {
    if o.requeue then Without(tasks, k) + [tasks[k]] else Without(tasks, k)
  }

  /**
    Map and tasks agree after every poll of a task: a stream leaves the map
    exactly when its task is not put back. So the next task polled finds its
    stream, and the `unreachable!` stays out of reach.
  */
  lemma PollKeepsAgreement(streams: map<StreamID, Entry>, tasks: seq<Task>, k: nat, code: U32, item: Option<Frame>)
    requires k < |tasks| && TaskIds(tasks) == multiset(streams.Keys)
    ensures tasks[k].id in streams
    ensures var o := PollTask(streams[tasks[k].id].handle, code, item);
      TaskIds(TasksAfter(tasks, k, o)) == multiset(StreamsAfter(streams, tasks[k].id, o).Keys)
  {
    hide TaskIds, Without;
    var id := tasks[k].id;
    TaskIdsWithout(tasks, k);
    assert id in TaskIds(tasks);
    TaskIdsPush(Without(tasks, k), tasks[k]);
    assert (streams - {id}).Keys == streams.Keys - {id};
    assert multiset(streams.Keys - {id}) == multiset(streams.Keys) - multiset{id};
    assert streams[id := streams[id]].Keys == streams.Keys;
  }

  lemma AllocatedIs(last: StreamID)
    ensures AllocatedId(last) == if last + 2 <= 0x7FFF_FFFF then last + 2 else 0x7FFF_FFFF
  {
  }

  class StreamManager {
    const limit: nat
    var streams: map<StreamID, Entry>
    var tasks: seq<Task>
    var sys: seq<Frame>
    var lastLocal: StreamID
    var lastRemote: StreamID
    var goneAway: bool

    /** The manager as the endpoint machine sees it. */
    ghost function View(): Manager
      reads this
    {
      Manager(limit, Handles(streams), TaskIds(tasks), sys, lastLocal, lastRemote, goneAway)
    }

    constructor (limit: nat, client: bool)
      ensures View() == NewEndpoint(client, 0, limit).mgr && tasks == []
    {
      this.limit := limit;
      streams, tasks, sys, goneAway := map[], [], [], false;
      lastLocal := if client then 1 else 0;
      lastRemote := if client then 0 else 1;
    }

    /** `go_away`: drain the map and close every sink in it. */
    method GoAway(error: Error)
      modifies this, set id | id in streams :: streams[id].closer
      ensures View() == old(View()).(streams := map[], goneAway := true)
      ensures forall id :: id in old(streams) ==>
        var was := old(streams[id].closer.code);
        old(streams)[id].closer.code == if was == 0 then ErrorCode(error) else was
      ensures tasks == old(tasks)
    {
      hide ErrorCode, CloseCode, TaskIds, Handles;
      goneAway := true;
      var drained := streams;
      streams := map[];
      HandlesNone();
      var left := drained.Keys;
      while left != {}
        invariant left <= drained.Keys && goneAway && streams == map[] && tasks == old(tasks)
        invariant sys == old(sys) && lastLocal == old(lastLocal) && lastRemote == old(lastRemote)
        invariant forall id :: id in drained ==>
          var c := drained[id].closer;
          c.code == (if old(c.code) == 0 then ErrorCode(error) else old(c.code)) || (id in left && c.code == old(c.code))
        decreases |left|
      {
        var id :| id in left;
        drained[id].closer.CloseWith(error);
        left := left - {id};
      }
    }

    /** `close_senders`: every stream sees the end of its inbox. */
    method CloseSenders()
      modifies set id | id in streams :: streams[id].toStream
      ensures forall id :: id in streams ==>
        var c := streams[id].toStream;
        c.senderClosed && c.items == old(c.items) && c.receiverDropped == old(c.receiverDropped)
    {
      var left := streams.Keys;
      while left != {}
        invariant left <= streams.Keys
        invariant forall id :: id in streams ==>
          var c := streams[id].toStream;
          c.items == old(c.items) && c.receiverDropped == old(c.receiverDropped) && (id !in left ==> c.senderClosed)
        decreases |left|
      {
        var id :| id in left;
        streams[id].toStream.senderClosed := true;
        left := left - {id};
      }
    }

    /** `create_stream`; `None` asks for the next local id, which stops growing at its maximum. */
    method CreateStream(remote: Option<StreamID>, toStream: Channel, recv: Channel, closer: SinkCloser, window: nat)
      returns (r: Result<StreamID, Error>)
      modifies this
      ensures r.Err? <==> old(|streams|) == limit
      ensures r.Err? ==> r.error == StreamsExhausted && unchanged(this)
      ensures sys == old(sys) && goneAway == old(goneAway)
      ensures r.Ok? ==>
        && r.value == (if remote.Some? then remote.value else if old(lastLocal) + 2 <= 0x7FFF_FFFF then old(lastLocal) + 2 else 0x7FFF_FFFF)
        && View() == Created(old(View()), r.value, window).(
             lastLocal := if remote.Some? then old(lastLocal) else r.value,
             lastRemote := if remote.Some? then r.value else old(lastRemote))
        && streams == old(streams)[r.value := Entry(NewHandle(window), toStream, closer)]
        && tasks == old(tasks) + [Task(r.value, recv)]
    {
      if |streams| == limit {
        return Err(StreamsExhausted);
      }
      AllocatedIs(lastLocal);
      hide Handles, TaskIds, NewHandle, AllocatedId, Ids;
      var id: StreamID;
      if remote.Some? {
        id := remote.value;
        lastRemote := id;
      } else {
        id := AllocatedId(lastLocal);
        lastLocal := id;
      }
      Insert(id, Entry(NewHandle(window), toStream, closer), recv);
      r := Ok(id);
    }

    /** The entry and the task of a new stream. */
    method Insert(id: StreamID, e: Entry, recv: Channel)
      modifies this`streams, this`tasks
      ensures streams == old(streams)[id := e] && tasks == old(tasks) + [Task(id, recv)]
      ensures Handles(streams) == Handles(old(streams))[id := e.handle]
      ensures TaskIds(tasks) == TaskIds(old(tasks)) + multiset{id}
    {
      HandlesUpdate(streams, id, e);
      hide Handles, TaskIds;
      streams := streams[id := e];
      PushTask(id, recv);
    }

    method PushTask(id: StreamID, recv: Channel)
      modifies this`tasks
      ensures tasks == old(tasks) + [Task(id, recv)] && TaskIds(tasks) == TaskIds(old(tasks)) + multiset{id}
    {
      TaskIdsPush(tasks, Task(id, recv));
      tasks := tasks + [Task(id, recv)];
    }

    /** The system half of `poll_next`: our own GOAWAY is stamped with the last remote id and ends the manager. */
    method PollSystemFrame() returns (frame: Frame)
      requires !goneAway && sys != []
      modifies this, set id | id in streams :: streams[id].closer
      ensures old(sys)[0].body.GoAway? ==>
        && frame == old(sys)[0].(body := old(sys)[0].body.(lastStreamId := old(lastRemote)))
        && View() == old(View()).(sys := old(sys)[1..], streams := map[], tasks := multiset{}, goneAway := true)
        && forall id :: id in old(streams) ==>
             old(streams)[id].closer.code == CloseCode(old(streams[id].closer.code), SessionClosed)
      ensures !old(sys)[0].body.GoAway? ==>
        && frame == old(sys)[0] && View() == old(View()).(sys := old(sys)[1..])
        && forall id :: id in old(streams) ==> old(streams)[id].closer.code == old(streams[id].closer.code)
    {
      frame := sys[0];
      sys := sys[1..];
      if frame.body.GoAway? {
        frame := frame.(body := frame.body.(lastStreamId := lastRemote));
        tasks := [];
        GoAway(SessionClosed);
      }
    }

    /**
      The stream half of `poll_next`, for the ready task at position `k`: a frame
      for the writer, or none when the stream is just removed.
    */
    method PollStreamTask(k: nat) returns (frame: Option<Frame>)
      requires !goneAway && sys == [] && k < |tasks| && tasks[k].id in streams
      requires tasks[k].recv.items != [] || tasks[k].recv.senderClosed
      modifies this, tasks[k].recv
      ensures var t, e := old(tasks)[k], old(streams)[old(tasks)[k].id];
        var items := old(tasks[k].recv.items);
        var o := PollTask(e.handle, old(e.closer.code), if items == [] then None else Some(items[0]));
        && frame == (if o.frame.Some? then Some(o.frame.value.WithStreamId(t.id)) else None)
        && streams == StreamsAfter(old(streams), t.id, o)
        && tasks == TasksAfter(old(tasks), k, o)
        && t.recv.items == (if items == [] then [] else items[1..])
        && (!o.requeue ==> t.recv.receiverDropped)
      ensures var t, e := old(tasks)[k], old(streams)[old(tasks)[k].id];
        var items := old(tasks[k].recv.items);
        if old(e.closer.code) != 0 && !e.handle.needsFin then frame == None && t.id !in streams
        else if items != [] then
          && frame == Some(Frame(items[0].header.(streamId := t.id), items[0].body))
          && streams == old(streams)[t.id := e.(handle := Handle(
               e.handle.needsFin && !items[0].header.flags.fin, e.handle.dataWriteClosed,
               e.handle.window + if items[0].body.WndInc? then items[0].body.inc else 0))]
          && t.recv.items == items[1..]
        else
          && frame == (if e.handle.needsFin then Some(Frame(Header(0, DataType, Flags(true, false), t.id), Data([]))) else None)
          && t.id !in streams
      ensures sys == old(sys) && lastLocal == old(lastLocal) && lastRemote == old(lastRemote) && !goneAway
    {
      var t := tasks[k];
      tasks := Without(tasks, k);
      var item := None;
      if t.recv.items != [] {
        item := Some(t.recv.items[0]);
        t.recv.items := t.recv.items[1..];
      }
      var e := streams[t.id];
      if e.closer.IsClosed() && !e.handle.needsFin {
        streams := streams - {t.id};
        t.recv.receiverDropped := true;
        return None;
      }
      if item.Some? {
        var h := e.handle;
        if item.value.body.WndInc? {
          h := h.(window := h.window + item.value.body.inc);
        }
        if item.value.IsFin() {
          h := h.(needsFin := false);
        }
        streams := streams[t.id := e.(handle := h)];
        tasks := tasks + [t];
        return Some(item.value.WithStreamId(t.id));
      }
      streams := streams - {t.id};
      t.recv.receiverDropped := true;
      frame := if e.handle.needsFin then Some(FinFrame().WithStreamId(t.id)) else None;
    }
  }

  // ---- delivering one frame ----

  /** The world one poll of the delivery finds: anything may have happened since the last. */
  datatype Found = Found(handle: Option<Handle>, code: U32, open: bool, slot: bool)

  /** What a delivery did: bytes taken off windows, frames queued, charge left, and the result. */
  datatype Delivery = Delivery(taken: nat, queued: nat, charge: nat, result: SendResult)

  function Outcome(f: Frame, charge: nat, w: Found): SendOutcome {
    PollSend(w.handle, w.code, w.open, f, charge, w.slot)
  }

  /** Bytes that one poll takes off the window it finds. */
  function Shrunk(f: Frame, charge: nat, w: Found): int {
    if w.handle.Some? then w.handle.value.window - Outcome(f, charge, w).handle.value.window else 0
  }

  lemma PollAccounts(f: Frame, charge: nat, w: Found)
    ensures var o := Outcome(f, charge, w);
      && (w.handle.Some? <==> o.handle.Some?)
      && (w.handle.Some? ==> w.handle.value.window - o.handle.value.window == charge - o.charge && o.charge <= charge)
      && (w.handle.None? ==> o.charge == charge)
      && (o.enqueued ==> o.result.SendOk? && o.charge == 0)
      && (o.result.SendPending? ==> o.charge == 0 && !o.enqueued)
  {
  }

  /** Poll until the delivery is over or the given worlds are used up. */
  function Deliver(f: Frame, charge: nat, worlds: seq<Found>): (d: Delivery)
    ensures d.taken + d.charge == charge
    ensures d.queued <= 1 && (d.queued == 1 ==> d.result.SendOk? && d.charge == 0)
    decreases |worlds|
  {
    if worlds == [] then Delivery(0, 0, charge, SendPending)
    else
      PollAccounts(f, charge, worlds[0]);
      var o := Outcome(f, charge, worlds[0]);
      var taken := Shrunk(f, charge, worlds[0]);
      if !o.result.SendPending? then Delivery(taken, if o.enqueued then 1 else 0, o.charge, o.result)
      else
        var d := Deliver(f, o.charge, worlds[1..]);
        d.(taken := taken + d.taken)
  }

  /**
    Retry-safe dispatch. However often the delivery of a frame is polled, and
    whatever happens to the stream between the polls, its bytes are taken off the
    window at most once and it is queued at most once; a frame that is queued has
    been paid for in full, exactly once.
  */
  lemma DispatchIsRetrySafe(f: Frame, worlds: seq<Found>)
    ensures var d := Deliver(f, InitialCharge(f), worlds);
      && d.taken <= InitialCharge(f) && d.queued <= 1
      && (d.queued == 1 ==> d.result.SendOk? && d.taken == InitialCharge(f))
      && (d.result.SendPending? ==> d.queued == 0)
    ensures forall k :: 0 < k < |worlds| && Deliver(f, InitialCharge(f), worlds[..k]).result.SendPending? ==>
      Shrunk(f, Deliver(f, InitialCharge(f), worlds[..k]).charge, worlds[k]) == 0
  {
    forall k | 0 < k < |worlds| && Deliver(f, InitialCharge(f), worlds[..k]).result.SendPending?
      ensures Shrunk(f, Deliver(f, InitialCharge(f), worlds[..k]).charge, worlds[k]) == 0
    {
      PendingOwesNothing(f, InitialCharge(f), worlds[..k]);
      PollAccounts(f, 0, worlds[k]);
    }
  }

  /** After a pending poll nothing is left to charge. */
  lemma {:induction false} PendingOwesNothing(f: Frame, charge: nat, worlds: seq<Found>)
    requires worlds != [] && Deliver(f, charge, worlds).result.SendPending?
    ensures Deliver(f, charge, worlds).charge == 0
    decreases |worlds|
  {
    hide Outcome;
    PollAccounts(f, charge, worlds[0]);
    if |worlds| == 1 {
    } else {
      PendingOwesNothing(f, Outcome(f, charge, worlds[0]).charge, worlds[1..]);
    }
  }

  /** The state that `send_to_stream` keeps between its polls. */
  class FrameDelivery {
    ghost const sent: Frame
    const id: StreamID
    const typ: HeaderType
    const isFin: bool
    var shrinkWindow: nat
    var frame: Option<Frame>

    ghost predicate Valid()
      reads this
    {
      && id == sent.header.streamId && typ == sent.header.typ && isFin == BareFin(sent)
      && !Undeliverable(sent)
      && frame == Some(sent)
    }

    constructor (frame: Frame)
      requires !Undeliverable(frame)
      ensures Valid() && sent == frame && shrinkWindow == InitialCharge(frame)
    {
      sent := frame;
      id, typ, isFin := frame.header.streamId, frame.header.typ, BareFin(frame);
      shrinkWindow := if frame.body.Data? then |frame.body.data| else 0;
      this.frame := Some(frame);
    }

    /** The closure `handle_frame`, on the entry of the stream. */
    method HandleFrame(e: Entry, slot: bool) returns (handle: Handle, r: SendResult)
      requires Valid()
      modifies this, e.closer, e.toStream
      ensures var o := TrySend(e.handle, old(e.closer.code), old(!e.toStream.receiverDropped && !e.toStream.senderClosed), sent, old(shrinkWindow), slot);
        && Some(handle) == o.handle && r == o.result && shrinkWindow == o.charge
        && e.closer.code == o.code
        && e.toStream.items == old(e.toStream.items) + (if o.enqueued then [sent] else [])
        && (if o.enqueued then frame == None else Valid())
      ensures e.toStream.receiverDropped == old(e.toStream.receiverDropped) && e.toStream.senderClosed == old(e.toStream.senderClosed)
    {
      hide ErrorCode;
      handle := e.handle;
      if typ == DataType && handle.dataWriteClosed {
        return handle, SendErr(StreamClosed);
      }
      if frame.value.body.Rst? {
        e.closer.CloseWith(frame.value.body.error);
        handle := handle.(dataWriteClosed := true, needsFin := false);
        return handle, SendOk;
      }
      if shrinkWindow <= handle.window {
        handle := handle.(window := handle.window - shrinkWindow);
        shrinkWindow := 0;
      } else {
        return handle, SendErr(FlowControl);
      }
      if e.toStream.receiverDropped || e.toStream.senderClosed {
        return handle, if isFin then SendOk else SendErr(StreamClosed);
      }
      if !slot {
        return handle, SendPending;
      }
      e.toStream.items := e.toStream.items + [frame.value];
      frame := None;
      r := SendOk;
    }

    /** One poll; the frame is still there for the next one unless it was queued. */
    method Poll(m: StreamManager, slot: bool) returns (r: SendResult)
      requires Valid()
      modifies this, m, if id in m.streams then {m.streams[id].closer, m.streams[id].toStream} else {}
      ensures id !in old(m.streams) ==>
        && r == PollSend(None, 0, false, sent, old(shrinkWindow), slot).result
        && m.streams == old(m.streams) && Valid() && shrinkWindow == old(shrinkWindow)
      ensures id in old(m.streams) ==>
        var e := old(m.streams)[id];
        var o := PollSend(Some(e.handle), old(e.closer.code), old(!e.toStream.receiverDropped && !e.toStream.senderClosed), sent, old(shrinkWindow), slot);
        && r == o.result && shrinkWindow == o.charge
        && o.handle.Some? && m.streams == old(m.streams)[id := e.(handle := o.handle.value)]
        && e.closer.code == o.code
        && e.toStream.items == old(e.toStream.items) + (if o.enqueued then [sent] else [])
      ensures r.SendPending? ==> Valid() && shrinkWindow == 0
      ensures m.tasks == old(m.tasks) && m.sys == old(m.sys) && m.goneAway == old(m.goneAway)
    {
      hide ErrorCode;
      if id !in m.streams {
        return if typ != DataType || isFin then SendOk else SendErr(StreamClosed);
      }
      var e := m.streams[id];
      var h, res := HandleFrame(e, slot);
      m.streams := m.streams[id := e.(handle := h)];
      if res.SendPending? {
        return SendPending;
      }
      if typ == DataType && !isFin {
        if res.SendErr? {
          e.closer.CloseWith(StreamClosed);
          h := h.(dataWriteClosed := true, needsFin := false);
          m.streams := m.streams[id := e.(handle := h)];
        }
        return res;
      }
      r := SendOk;
    }
  }
}
