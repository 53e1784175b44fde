/** agentix_assignment: earliest-finish list scheduling on a warm source and a cold destination. */
module ListScheduling {

  /** How many of the assignments satisfy `move == to`. */
  function CountOf(moves: seq<bool>, to: bool): nat {
    if moves == [] then 0 else CountOf(moves[..|moves|-1], to) + if moves[|moves|-1] == to then 1 else 0
  }

  /** The work of n equal jobs. */
  function Work(n: nat, seconds: real): real { n as real * seconds }

  function Makespan(stay: nat, move: nat, warm: real, cold: real): real {
    if Work(stay, warm) >= Work(move, cold) then Work(stay, warm) else Work(move, cold)
  }

  lemma {:induction false} CountsAddUp(moves: seq<bool>)
    ensures CountOf(moves, true) + CountOf(moves, false) == |moves|
  {
    if moves != [] {
      CountsAddUp(moves[..|moves|-1]);
    }
  }

  lemma WorkMonotone(x: nat, y: nat, c: real)
    requires x <= y && c >= 0.0
    ensures Work(x, c) <= Work(y, c)
  {
  }

  lemma WorkStep(x: nat, c: real)
    ensures Work(0, c) == 0.0 && Work(x + 1, c) == Work(x, c) + c
  {
  }

  /** The jobs placed last finish no later than they would have on the other engine. */
  ghost predicate Balanced(stay: nat, move: nat, warm: real, cold: real) {
    && (stay > 0 ==> Work(stay, warm) <= Work(move + 1, cold))
    && (move > 0 ==> Work(move, cold) <= Work(stay + 1, warm))
  }

  lemma PlacingKeepsBalance(stay: nat, move: nat, warm: real, cold: real)
    requires Balanced(stay, move, warm, cold) && warm >= 0.0 && cold >= 0.0
    ensures if Work(move, cold) + cold < Work(stay, warm) + warm then Balanced(stay, move + 1, warm, cold)
            else Balanced(stay + 1, move, warm, cold)
  {
    hide Work;
    WorkStep(stay, warm);
    WorkStep(stay + 1, warm);
    WorkStep(move, cold);
    WorkStep(move + 1, cold);
  }

  /** Of two splits of equally many jobs a balanced one has the smaller makespan. */
  lemma BalancedIsOptimal(stay: nat, move: nat, stay': nat, move': nat, warm: real, cold: real)
    requires warm >= 0.0 && cold >= 0.0 && stay + move == stay' + move' && Balanced(stay, move, warm, cold)
    ensures Makespan(stay, move, warm, cold) <= Makespan(stay', move', warm, cold)
  {
    hide Work;
    WorkStep(0, warm);
    WorkStep(0, cold);
    WorkMonotone(0, stay', warm);
    WorkMonotone(0, move', cold);
    if stay' > stay {
      WorkMonotone(stay + 1, stay', warm);
      WorkMonotone(stay, stay', warm);
    } else if stay' < stay {
      WorkMonotone(move + 1, move', cold);
      WorkMonotone(move, move', cold);
    }
  }

  /** No split of the agents between the two engines finishes earlier. */
  method AgentixAssignment(count: nat, warm: real, cold: real) returns (useDestination: seq<bool>)
    ensures |useDestination| == count
    ensures warm >= 0.0 && cold >= 0.0 ==> forall other: seq<bool> :: |other| == count ==>
              Makespan(CountOf(useDestination, false), CountOf(useDestination, true), warm, cold)
              <= Makespan(CountOf(other, false), CountOf(other, true), warm, cold)
  {
    hide Balanced, Makespan, Work;
    WorkStep(0, warm);
    WorkStep(0, cold);
    var sourceWork, destinationWork := 0.0, 0.0;
    useDestination := [];
    ghost var stay: nat, move: nat := 0, 0;
    StartsBalanced(warm, cold);
    for n := 0 to count
      invariant |useDestination| == n && stay == CountOf(useDestination, false) && move == CountOf(useDestination, true)
      invariant sourceWork == Work(stay, warm) && destinationWork == Work(move, cold)
      invariant warm >= 0.0 && cold >= 0.0 ==> Balanced(stay, move, warm, cold)
    {
      if warm >= 0.0 && cold >= 0.0 {
        PlacingKeepsBalance(stay, move, warm, cold);
      }
      WorkStep(stay, warm);
      WorkStep(move, cold);
      var sourceFinish := sourceWork + warm;
      var destinationFinish := destinationWork + cold;
      var toDestination := destinationFinish < sourceFinish;
      assert (useDestination + [toDestination])[..n] == useDestination;
      useDestination := useDestination + [toDestination];
      if toDestination {
        destinationWork := destinationFinish;
        move := move + 1;
      } else {
        sourceWork := sourceFinish;
        stay := stay + 1;
      }
    }
    CountsAddUp(useDestination);
    if warm >= 0.0 && cold >= 0.0 {
      forall other: seq<bool> | |other| == count
        ensures Makespan(stay, move, warm, cold) <= Makespan(CountOf(other, false), CountOf(other, true), warm, cold)
      {
        CountsAddUp(other);
        BalancedIsOptimal(stay, move, CountOf(other, false), CountOf(other, true), warm, cold);
      }
    }
  }

  lemma StartsBalanced(warm: real, cold: real)
    ensures Balanced(0, 0, warm, cold)
  {
  }
}
