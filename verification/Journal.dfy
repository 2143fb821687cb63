/** Journal rows as the repository keeps them: appended in order, moved from state to state by compare-and-set. */
module Journal {
  import opened Common
  import opened Recovery

  datatype Row<+E> = Row(entry: E, state: RecoveryState)

  predicate IsUnfinished<E>(row: Row<E>) {
    !row.state.IsTerminal()
  }

  predicate AllFinished<E>(rows: seq<Row<E>>) {
    forall r :: 0 <= r < |rows| ==> !IsUnfinished(rows[r])
  }

  /** The unfinished rows, oldest first. */
  function Unfinished<E>(rows: seq<Row<E>>): (r: seq<nat>)
    ensures forall i: nat :: i in r <==> i < |rows| && IsUnfinished(rows[i])
    ensures forall i, j :: 0 <= i < j < |r| ==> r[i] < r[j]
  {
    if rows == [] then []
    else
      var n := |rows| - 1;
      var front := Unfinished(rows[..n]);
      assert forall i :: 0 <= i < |front| ==> front[i] in front;
      if IsUnfinished(rows[n]) then front + [n] else front
  }

  lemma NoneUnfinished<E>(rows: seq<Row<E>>)
    ensures Unfinished(rows) == [] <==> AllFinished(rows)
  {
    if Unfinished(rows) != [] {
      assert Unfinished(rows)[0] in Unfinished(rows);
    }
  }

  function SetState<E>(rows: seq<Row<E>>, row: nat, state: RecoveryState): seq<Row<E>>
    requires row < |rows|
  {
    rows[row := rows[row].(state := state)]
  }

  /** Compare-and-set one row's state. The result says whether the caller saw it applied. */
  function Transition<E>(rows: seq<Row<E>>, row: nat, expected: RecoveryState, next: RecoveryState, reply: Reply)
    : (seq<Row<E>>, bool)
    requires row < |rows| && expected.Allows(next)
  {
    if reply.Refused? || rows[row].state != expected then (rows, false)
    else (SetState(rows, row, next), reply.Seen?)
  }

  /** A caller is told of a transition only if the row was in the expected state and is now in the next one. A row in
      another state, and every other row, stays as it is; every entry stays what it was. */
  method TransitionRow<E>(rows: seq<Row<E>>, row: nat, expected: RecoveryState, next: RecoveryState, reply: Reply)
    returns (after: seq<Row<E>>, seen: bool)
    requires row < |rows| && expected.Allows(next)
    ensures (after, seen) == Transition(rows, row, expected, next, reply)
    ensures |after| == |rows| &&
            forall r :: 0 <= r < |rows| ==> after[r].entry == rows[r].entry && (r != row ==> after[r] == rows[r])
    ensures rows[row].state != expected ==> after == rows && !seen
    ensures seen ==> rows[row].state == expected && after[row].state == next
    ensures !seen && after != rows ==> reply.Lost?
  {
    if reply.Refused? || rows[row].state != expected {
      return rows, false;
    }
    return rows[row := rows[row].(state := next)], reply.Seen?;
  }
}
