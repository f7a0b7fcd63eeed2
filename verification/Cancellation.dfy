/** `cancel_and_quiesce`: enforcement first, then the records of the canceller, in order, until one of
    them is lost or the run is sealed. */
module Cancellation {
  import opened Records
  import opened RunModel
  import opened Connections
  import opened Protocol
  import opened Lifecycle
  import opened Gate

  /** The first k records of the canceller. */
  ghost function FirstOf(run: Run, c: Canceller, k: nat): (t: seq<Rec>)
    requires run.cancellation.Some?
    ensures |t| == k
  {
    seq(k, i requires 0 <= i < k => Script(run, c, i))
  }

  lemma FirstNext(run: Run, c: Canceller, k: nat)
    requires run.cancellation.Some?
    ensures FirstOf(run, c, k + 1) == FirstOf(run, c, k) + [Script(run, c, k)]
  {
  }

  /** What the canceller has found when it turns to KILL_SWITCH. */
  function FoundBy(torn: seq<string>, victims: seq<string>, effects: nat, producers: nat, stopStarted: bool,
                   stopped: bool): Canceller {
    Canceller(CDeciding, victims, [], 0, 0, false, torn, {}, stopStarted, stopped, effects, producers)
  }

  /** The records after LINEARIZED: KILL_SWITCH, then DRAIN_TIMEOUT, or ACK and the sealing RUN_CLOSED. */
  method RecordClosure(sink: AuditSink, ghost run: Run, t: Cancellation, epoch: nat, c: Canceller, killIo: Io, dispositionIo: Io, closeIo: Io)
    returns (k: nat)
    requires run.cancellation == Some(t) && run.epoch == epoch
    requires !sink.isSealed
    modifies sink
    ensures 2 <= k <= 5
    ensures sink.log == old(sink.log) + FirstOf(run, c, k)[2..]
    ensures sink.isSealed <==> k == 5
    ensures k == 5 ==> c.Quiescent() && sink.healthy
    ensures !c.Quiescent() ==> k <= 4
  {
    k := 2;
    assert FirstOf(run, c, 2)[2..] == [];
    var facts := Facts(epoch, t.seqNo, c.Quiescent(), c.effects + c.producers, c.effects, c.producers,
                       if c.ListenerDown() then STOPPED else NOT_STOPPED, NO_EXTERNAL);
    assert sink.log == old(sink.log) + [];
    if !sink.healthy { return; }
    var ok := sink.Write(KillSwitch("STOP_ALL_TORE_DOWN_LIVE_CONNECTIONS", |c.torn|, c.torn, c.victims, facts), killIo);
    if !ok { return; }
    k := 3;
    assert FirstOf(run, c, 3)[2..] == [Script(run, c, 2)];
    if !c.Quiescent() {
      ok := sink.Write(DrainTimeout(NO_ACK_SCOPE, Some(Blockers(c)), facts), dispositionIo);
      if ok { k := 4; assert FirstOf(run, c, 4)[2..] == [Script(run, c, 2), Script(run, c, 3)]; }
      return;
    }
    ok := sink.Write(CancelAck(ACK_SCOPE, facts), dispositionIo);
    if !ok { return; }
    k := 4;
    assert FirstOf(run, c, 4)[2..] == [Script(run, c, 2), Script(run, c, 3)];
    ok := sink.SealWith(RunClosed(RUN_CLOSE_SCHEMA, t.seqNo, "CLOSED", "TERMINAL", 0, 0, 0, STOPPED, SEAL_ACTION,
                                  ACK_DECISION), closeIo);
    if ok {
      k := 5;
      assert FirstOf(run, c, 5)[2..] == [Script(run, c, 2), Script(run, c, 3), Script(run, c, 4)];
    }
  }

  /** All five records, as far as they become durable. */
  method RecordAll(sink: AuditSink, ghost run: Run, t: Cancellation, epoch: nat, c: Canceller, ios: seq<Io>) returns (k: nat)
    requires run.cancellation == Some(t) && run.epoch == epoch && |ios| == 5 && !sink.isSealed
    modifies sink
    ensures k <= 5 && sink.log == old(sink.log) + FirstOf(run, c, k)
    ensures sink.isSealed <==> k == 5
    ensures k == 5 ==> c.Quiescent()
  {
    FirstNext(run, c, 0);
    FirstNext(run, c, 1);
    var length := |sink.log|;
    var durable := Registry.Record(sink, t, ios[0], ios[1]);
    if !durable {
      k := |sink.log| - length;
      return;
    }
    assert sink.log == old(sink.log) + FirstOf(run, c, 2);
    k := RecordClosure(sink, run, t, epoch, c, ios[2], ios[3], ios[4]);
    assert FirstOf(run, c, k) == FirstOf(run, c, 2) + FirstOf(run, c, k)[2..];
  }

  /** The whole cancellation: however the appends go, the run is cancelled, the registry is killed and
      empty and every victim is shut down; the log grows by a prefix of the five records; and the run
      is sealed exactly if all five are durable, which takes a quiescent run. */
  method CancelAndQuiesce(registry: Registry, sink: AuditSink, ios: seq<Io>, os: Handles, live: set<Handle>,
                          stopStarted: bool, stopped: bool)
    returns (k: nat, torn: seq<string>, victims: seq<ConnectionLifecycle>)
    requires registry.Valid() && |ios| == 5 && !sink.isSealed
    modifies registry, registry.run, registry.conns, sink, os
    ensures registry.Valid() && registry.killed && registry.conns == {}
    ensures registry.run.Value() == old(registry.run.Value()).Cancel().0
    ensures forall x | x in old(registry.conns) :: Shut(x, os) && x.sockets == old(x.sockets)
    ensures k <= 5 && registry.run.cancellation.Some?
    ensures (set c | c in victims) == old(registry.conns)
    ensures exists retained :: Retains(victims, retained) && torn == TornIds(IdsOf(victims), retained, old(os.closed), live)
    ensures sink.log == old(sink.log) + FirstOf(registry.run.Value(),
                          FoundBy(torn, IdsOf(victims), |registry.run.inflight|, registry.activeProducers, stopStarted, stopped), k)
    ensures sink.isSealed <==> k == 5
    ensures k == 5 ==> |registry.run.inflight| == 0 && registry.activeProducers == 0 && stopped && stopStarted
  {
    var transition, retained;
    transition, torn, victims, retained := registry.Enforce(os, live);
    var effects := registry.run.InflightCount();
    var found := FoundBy(torn, IdsOf(victims), effects, registry.activeProducers, stopStarted, stopped);
    k := RecordAll(sink, registry.run.Value(), transition, registry.run.epoch, found, ios);
    assert Retains(victims, retained);
  }
}
