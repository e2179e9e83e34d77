/** The runtimes that own a simulation: the client's, with its input history, and the
    server's, with its rewind history (Client/src/ClientRuntime.cpp,
    Server/src/ServerRuntime.cpp). */
module Runtimes {
  import opened Basics
  import opened Replication
  import opened Motion
  import Sim = Simulation
  import opened SimulationObject
  import Replicas
  import opened ClientRun
  import opened LagCompensation

  const MAX_INTERPOLATION: nat := 32

  class ClientRuntime {
    const local: ClientId
    const simulation: GameSimulation
    const pendingInputs: PendingInputHistory
    /** The snapshots for interpolation, kept and looked up as the rewind history is. */
    const interpolation: LagCompensationHistory
    var nextSequence: Sequence

    function State(): Runtime
      reads this, simulation, pendingInputs
    {
      Runtime(simulation.Between(), pendingInputs.unacked, nextSequence)
    }

    constructor (local: ClientId, config: Sim.Config, order: Order)
      ensures this.local == local && State() == NEW_RUNTIME
      ensures simulation.config == config.(mode := Sim.ClientPrediction) && simulation.order == order
      ensures interpolation.snapshots == [] && interpolation.maxSnapshots == MAX_INTERPOLATION
      ensures fresh(simulation) && fresh(pendingInputs) && fresh(interpolation)
    {
      this.local := local;
      simulation := new GameSimulation(config.(mode := Sim.ClientPrediction), order);
      pendingInputs := new PendingInputHistory();
      interpolation := new LagCompensationHistory(MAX_INTERPOLATION);
      nextSequence := 1;
    }

    method ConnectToLocal() returns (connected: bool)
      modifies simulation
      ensures State() == ClientStep(simulation.config, simulation.order, local, old(State()), ConnectLocal)
      ensures connected <==> local in simulation.playerByClient
    {
      connected := simulation.SubmitLogin(local, 0);
    }

    method Queue(frame: InputFrame) returns (packet: Sim.Input)
      modifies this, simulation, pendingInputs
      ensures State() == ClientStep(simulation.config, simulation.order, local, old(State()), QueueInput(frame))
      ensures packet == Sim.Input(local, old(nextSequence), frame)
    {
      packet := Sim.Input(local, nextSequence, frame);
      nextSequence := nextSequence + 1;
      pendingInputs.Record(packet);
      var accepted := simulation.SubmitInput(packet);
    }

    method Tick()
      modifies simulation
      ensures State() == ClientStep(simulation.config, simulation.order, local, old(State()), TickSimulation)
    {
      hide Sim.TickFixed;
      simulation.TickFixed();
    }

    method ApplyServerSnapshot(snapshot: Snapshot)
      modifies simulation, pendingInputs, interpolation
      ensures State() == ClientStep(simulation.config, simulation.order, local, old(State()), TakeSnapshot(snapshot))
      ensures interpolation.snapshots == Kept(old(interpolation.snapshots) + [snapshot], interpolation.maxSnapshots)
    {
      interpolation.Record(snapshot);
      hide Replicas.ApplySnapshot, Replicas.Replay, Replicas.AcknowledgeThrough;
      simulation.ApplySnapshot(snapshot, local);
      pendingInputs.AcknowledgeThrough(snapshot.ackedInput);
      simulation.ReplayLocalInputsForPrediction(pendingInputs.unacked);
    }

    method SampleAt(renderTime: Time) returns (result: Option<Snapshot>)
      ensures result == Closest(interpolation.snapshots, renderTime)
    {
      result := interpolation.ClosestAtOrBefore(renderTime);
    }
  }

  class ServerRuntime {
    const simulation: GameSimulation
    const history: LagCompensationHistory
    const limits: LagCompensation.Config
    var nextSnapshotId: SnapshotId
    var nextHistoryId: SnapshotId

    constructor (config: Sim.Config, order: Order, limits: LagCompensation.Config)
      ensures simulation.config == config.(mode := Sim.ServerAuthoritative) && simulation.order == order
      ensures simulation.Between() == Sim.NEW_WORLD && history.snapshots == [] && history.maxSnapshots == MAX_SNAPSHOTS
      ensures nextSnapshotId == nextHistoryId == 1 && this.limits == limits
      ensures fresh(simulation) && fresh(history)
    {
      simulation := new GameSimulation(config.(mode := Sim.ServerAuthoritative), order);
      history := new LagCompensationHistory(MAX_SNAPSHOTS);
      this.limits := limits;
      nextSnapshotId, nextHistoryId := 1, 1;
    }

    /** One tick of the simulation, remembered as everyone-sees-everything. */
    method Tick()
      requires Replicas.Chunked(simulation.config.rules.map_)
      modifies this`nextHistoryId, simulation, history
      ensures simulation.Between() == Sim.TickFixed(simulation.config, simulation.order, old(simulation.Between()))
      ensures nextHistoryId == old(nextHistoryId) + 1
      ensures history.snapshots == Kept(
                old(history.snapshots)
                + [Replicas.BuildSnapshot(simulation.config, simulation.order, simulation.Between(), 0, old(nextHistoryId), 0)],
                history.maxSnapshots)
    {
      hide Sim.TickFixed, Replicas.BuildSnapshot;
      simulation.TickFixed();
      var snapshot := simulation.BuildSnapshot(0, nextHistoryId, 0);
      nextHistoryId := nextHistoryId + 1;
      history.Record(snapshot);
    }

    method BuildSnapshotFor(client: ClientId, baseline: SnapshotId) returns (snapshot: Snapshot)
      requires Replicas.Chunked(simulation.config.rules.map_)
      modifies this`nextSnapshotId
      ensures nextSnapshotId == old(nextSnapshotId) + 1
      ensures snapshot == Replicas.BuildSnapshot(simulation.config, simulation.order, simulation.Between(), client, old(nextSnapshotId), baseline)
    {
      hide Replicas.BuildSnapshot;
      snapshot := simulation.BuildSnapshot(client, nextSnapshotId, baseline);
      nextSnapshotId := nextSnapshotId + 1;
    }

    method QueryLagCompensation(clientTime: Time, offset: int) returns (result: Result)
      ensures result == Answer(limits, history.snapshots, Query(clientTime, offset, simulation.time))
    {
      var query := Query(clientTime, offset, simulation.time);
      var target := MapClientTimeToServerTime(query);
      if target > query.serverNow + limits.futureTolerance {
        return Result(FromFuture, target, None);
      }
      if query.serverNow > target && query.serverNow - target > limits.maxRewind {
        return Result(TooOld, target, None);
      }
      var snapshot := history.ClosestAtOrBefore(target);
      if snapshot.None? {
        return Result(HistoryUnavailable, target, None);
      }
      result := Result(Accepted, target, snapshot);
    }
  }
}
