/** Which speaker a room plays through: a request picks the newest, and nothing else displaces the one that has played
    longest. */
module PlaybackOutputs {
  import opened Common
  import opened Playback
  import opened PlaybackInvariants
  import opened PlaybackRuns

  /** A request for several outputs in a single-output room: the last one requested that is not active yet wins, and the
      last one requested if all are active. */
  lemma NewestRequestedWins(r: Room, requested: seq<string>) returns (i: nat)
    requires !r.multipleOutputs && |requested| > 1
    ensures i < |requested| && SetActiveOutputsStep(r, requested).room.activeOutputs == [requested[i]]
    ensures forall j :: i < j < |requested| ==> requested[j] in r.activeOutputs
    ensures if forall d :: d in requested ==>
            d in r.activeOutputs then i == |requested| - 1 else requested[i] !in r.activeOutputs
  {
    i := NewestIndex(r.activeOutputs, requested, |requested|);
  }

  /** Asking for the active outputs and one more, in any order and however often, moves a single-output room there. */
  lemma SoleNewcomerWins(r: Room, requested: seq<string>, newcomer: string)
    requires !r.multipleOutputs && newcomer in requested && newcomer !in r.activeOutputs
    requires forall d :: d in requested ==> d == newcomer || d in r.activeOutputs
    ensures SetActiveOutputsStep(r, requested).room.activeOutputs == [newcomer]
  {
    if |requested| > 1 {
      var i := NewestRequestedWins(r, requested);
      assert requested[i] in requested;
    } else {
      assert requested == [newcomer];
    }
  }

  /** Inputs that neither choose outputs nor take away this one; connecting by default is among them. */
  predicate LeavesOutput(input: Input, output: string) {
    match input
    case Do(command, _) => !command.SetActiveOutputs? && command != RemoveActiveOutput(output)
    case AdoptPolicy(_) => true
    case Restart(_) => false
  }

  predicate PlaysFirstThrough(r: Room, output: string) {
    r.activeOutputs != [] && r.activeOutputs[0] == output
  }

  lemma RoomCommandLeavesOutput(r: Room, command: Command, output: string)
    requires IsRoomCommand(command) && ApplyRoom(r, command).Ok? && PlaysFirstThrough(r, output)
    requires !command.SetActiveOutputs? && command != RemoveActiveOutput(output)
    ensures PlaysFirstThrough(ApplyRoom(r, command).value.room, output)
  {
  }

  lemma InputLeavesOutput(s: State, input: Input, output: string)
    requires LeavesOutput(input, output) && PlaysFirstThrough(s.room, output)
    ensures PlaysFirstThrough(After(s, input).room, output)
  {
    if input.Do? && Apply(s, input.command, input.ctx).Ok? {
      if IsRoomCommand(input.command) {
        RoomCommandLeavesOutput(s.room, input.command, output);
      } else if IsAmbientMove(input.command) {
        AmbientMoveKeepsRoom(s, input.command, input.ctx);
      }
    }
  }

  /** However devices connect and modes change their policy, the output that has played longest goes on playing until it
      is taken away or others are chosen; and whenever the policy allows one output only, it is the one. */
  lemma {:induction false} LongestRunningOutputStays(s: State, clock: u64, inputs: seq<Input>, output: string)
    requires LanesOk(s, clock) && RoomOk(s.room) && InOrderOfTime(clock, inputs)
    requires PlaysFirstThrough(s.room, output) && forall i :: 0 <= i < |inputs| ==> LeavesOutput(inputs[i], output)
    ensures var r := Execute(s, inputs).room;
            PlaysFirstThrough(r, output) && (!r.multipleOutputs ==> r.activeOutputs == [output])
    decreases inputs
  {
    if inputs != [] {
      InputLeavesOutput(s, inputs[0], output);
      InputKeepsInvariants(s, inputs[0], clock);
      LongestRunningOutputStays(After(s, inputs[0]), ClockAfter(clock, inputs[0]), inputs[1..], output);
    }
  }
}
