/**
 A model of the bridge-and-torch puzzle: people stand on the left or right
 bank, one torch (flashlight) is on one of the banks, and one or two people
 cross together, carrying the torch, for as long as the slower of them needs.

 The puzzle's table of crossing times is a parameter; the set of everyone is
 its key set.  A state is the two banks, the torch's bank and the elapsed time.
 The module gives the goal test, the move generator and what is proved of them.
 */
module BridgeAndTorch {

  type Person = string

  /** Crossing time of every person; the keys are all the people of the puzzle. */
  type People = map<Person, nat>

  /** The durations of a well-formed table are positive. */
  ghost predicate ValidPeople(people: People) {
    forall p :: p in people ==> people[p] > 0
  }

  /** Everyone in the puzzle. */
  function All(people: People): set<Person> {
    people.Keys
  }

  datatype Side = L | R

  function Opposite(side: Side): Side {
    if side == L then R else L
  }

  datatype State = State(left: set<Person>, right: set<Person>, flashlight: Side, time: nat)
  {
    /** The people on the given bank. */
    function On(side: Side): set<Person> {
      if side == L then left else right
    }

    /** The people on the bank that holds the torch: the only ones who can cross. */
    function TorchSide(): set<Person> {
      On(flashlight)
    }
  }

  /** Everyone stands on exactly one bank. */
  ghost predicate Partitioned(people: People, s: State) {
    s.left * s.right == {} && s.left + s.right == All(people)
  }

  /** Everyone on the left, torch on the left, no time elapsed. */
  function Start(people: People): State {
    State(All(people), {}, L, 0)
  }

  /** The goal test: everyone has reached the right bank. */
  predicate IsGoal(people: People, s: State) {
    s.right == All(people)
  }

  function Max(x: nat, y: nat): nat {
    if x >= y then x else y
  }

  /** One crossing: an ordered pair of people, or one person alone. */
  datatype Move = Pair(a: Person, b: Person) | Solo(p: Person)

  function Movers(m: Move): set<Person> {
    match m
    case Pair(a, b) => {a, b}
    case Solo(p) => {p}
  }

  /** A move the generator enumerates from the bank `side`: a pair of two
      different people of that bank, or one person of it. */
  predicate IsMove(side: set<Person>, m: Move) {
    match m
    case Pair(a, b) => a in side && b in side && a != b
    case Solo(p) => p in side
  }

  /** The time one move takes: that of its slowest mover. */
  function Duration(people: People, m: Move): (d: nat)
    requires Movers(m) <= All(people)
    ensures forall p :: p in Movers(m) ==> people[p] <= d
    ensures exists p :: p in Movers(m) && d == people[p]
  {
    match m
    case Pair(a, b) => Max(people[a], people[b])
    case Solo(p) => people[p]
  }

  /** The state after the movers cross from the torch's bank to the other one. */
  function Apply(people: People, s: State, m: Move): (t: State)
    requires Movers(m) <= All(people)
    ensures t.flashlight == Opposite(s.flashlight)
    ensures t.On(s.flashlight) == s.On(s.flashlight) - Movers(m)
    ensures t.On(t.flashlight) == s.On(t.flashlight) + Movers(m)
    ensures t.time == s.time + Duration(people, m)
  {
    var group := Movers(m);
    var time := s.time + Duration(people, m);
    if s.flashlight == L then State(s.left - group, s.right + group, R, time)
    else State(s.left + group, s.right - group, L, time)
  }

  /**
   The reference definition of one legal crossing from `s` to `t`, stated on
   the two states alone: the torch changes bank; the group of those who left
   the torch's bank has one or two members, all of them in the table; they
   and nobody else arrive on the other bank; and the elapsed time grows by the
   crossing time of the slowest member of the group.
   */
  ghost predicate LegalStep(people: People, s: State, t: State) {
    var here := s.flashlight;
    var there := Opposite(here);
    var group := s.On(here) - t.On(here);
    && t.flashlight == there
    && 1 <= |group| <= 2
    && group <= All(people)
    && t.On(here) <= s.On(here)
    && t.On(there) == s.On(there) + group
    && (forall p :: p in group ==> s.time + people[p] <= t.time)
    && (exists p :: p in group && t.time == s.time + people[p])
  }

  // ---------------------------------------------------------------------------
  // The goal test

  /** Only the right bank decides the goal test. */
  lemma GoalIgnoresOtherFields(people: People, s: State, t: State)
    requires s.right == t.right
    ensures IsGoal(people, s) <==> IsGoal(people, t)
  {
  }

  /** On a partitioned state the goal is reached exactly when the left bank is empty. */
  lemma GoalMeansLeftEmpty(people: People, s: State)
    requires Partitioned(people, s)
    ensures IsGoal(people, s) <==> s.left == {}
  {
  }

  /** The start state is partitioned, and it is already a goal exactly when
      there is nobody to bring across. */
  lemma StartState(people: People)
    ensures Partitioned(people, Start(people))
    ensures IsGoal(people, Start(people)) <==> people == map[]
  {
  }

  /** The script's own crossing-time table. */
  const PEOPLE: People := map["P1" := 1, "P2" := 2, "P5" := 5, "P10" := 10, "P15" := 15]

  /** The script's table is well formed; it starts with all five on the left
      bank, which is not a goal. */
  lemma ScriptTable()
    ensures ValidPeople(PEOPLE)
    ensures |All(PEOPLE)| == 5
    ensures Partitioned(PEOPLE, Start(PEOPLE)) && !IsGoal(PEOPLE, Start(PEOPLE))
  {
    assert All(PEOPLE) == {"P1", "P2", "P5", "P10", "P15"};
    assert "P1" in All(PEOPLE);
  }

  // ---------------------------------------------------------------------------
  // Moves and crossings

  /** A pair move crosses two different people, a solo move one, and they
      come from the bank the move is drawn from. */
  lemma MoveShape(side: set<Person>, m: Move)
    requires IsMove(side, m)
    ensures Movers(m) <= side
    ensures |Movers(m)| == if m.Pair? then 2 else 1
  {
  }

  /** A pair crosses the same way whichever of its two people is named first. */
  lemma PairOrderIrrelevant(people: People, s: State, a: Person, b: Person)
    requires a in people && b in people
    ensures Apply(people, s, Pair(a, b)) == Apply(people, s, Pair(b, a))
  {
  }

  /** The movers leave the torch's bank and join the other one, the torch goes
      with them, and nobody else changes bank. */
  lemma OnlyMoversCross(people: People, s: State, m: Move)
    requires IsMove(s.TorchSide(), m) && Movers(m) <= All(people)
    ensures var t := Apply(people, s, m);
      && t.flashlight == Opposite(s.flashlight)
      && Movers(m) <= t.On(Opposite(s.flashlight))
      && Movers(m) !! t.On(s.flashlight)
      && forall x :: x !in Movers(m) ==> (x in t.left <==> x in s.left) && (x in t.right <==> x in s.right)
  {
  }

  /** Every enumerated move is a legal crossing. */
  lemma StepSound(people: People, s: State, m: Move)
    requires IsMove(s.TorchSide(), m) && Movers(m) <= All(people)
    ensures LegalStep(people, s, Apply(people, s, m))
  {
  }

  /** A set of one or two people is {a, b} for some a and b (equal for one). */
  lemma OneOrTwo(group: set<Person>)
    requires 1 <= |group| <= 2
    ensures exists a, b :: group == {a, b}
  {
    var a :| a in group;
    if group - {a} == {} {
      assert group == {a, a};
    } else {
      var b :| b in group - {a};
      assert |group - {a} - {b}| == |group| - 2;
      assert group == {a, b};
    }
  }

  /** Every legal crossing is the effect of some enumerated move. */
  lemma StepComplete(people: People, s: State, t: State)
    requires LegalStep(people, s, t)
    ensures exists m :: IsMove(s.TorchSide(), m) && Movers(m) <= All(people) && t == Apply(people, s, m)
  {
    var here := s.flashlight;
    var group := s.On(here) - t.On(here);
    OneOrTwo(group);
    var a, b :| group == {a, b};
    var m := if a == b then Solo(a) else Pair(a, b);
    assert Movers(m) == group;
    var p :| p in group && t.time == s.time + people[p];
    assert t.time == s.time + Duration(people, m);
    var u := Apply(people, s, m);
    assert u.On(here) == t.On(here) && u.On(Opposite(here)) == t.On(Opposite(here));
    assert u.left == t.left && u.right == t.right;
  }
  /** A legal crossing keeps everyone on exactly one bank. */
  lemma StepPreservesPartition(people: People, s: State, t: State)
    requires Partitioned(people, s) && LegalStep(people, s, t)
    ensures Partitioned(people, t)
  {
  }

  /** With positive crossing times, every legal crossing takes time. */
  lemma StepTakesTime(people: People, s: State, t: State)
    requires ValidPeople(people) && LegalStep(people, s, t)
    ensures t.time > s.time
  {
  }

  // ---------------------------------------------------------------------------
  // The move generator

  /** What the generator returns: the list of next states, or the KeyError
      raised when a person on the torch's bank has no crossing time. */
  datatype Outcome = Generated(states: seq<State>) | KeyError(person: Person)

  /** A list that enumerates, one entry per move and with no move twice, some
      moves from the torch's bank of `s`, and holds the states they lead to. */
  ghost predicate Enumerates(people: People, s: State, states: seq<State>, moves: seq<Move>) {
    && |states| == |moves|
    && (forall i :: 0 <= i < |moves| ==>
          IsMove(s.TorchSide(), moves[i]) && Movers(moves[i]) <= All(people)
          && states[i] == Apply(people, s, moves[i]))
    && (forall i, j :: 0 <= i < j < |moves| ==> moves[i] != moves[j])
  }

  /** Appending a move not yet listed keeps the list an enumeration. */
  lemma EnumeratesAppend(people: People, s: State, states: seq<State>, moves: seq<Move>, m: Move)
    requires Enumerates(people, s, states, moves)
    requires IsMove(s.TorchSide(), m) && Movers(m) <= All(people) && m !in moves
    ensures Enumerates(people, s, states + [Apply(people, s, m)], moves + [m])
  {
  }

  /** A list that enumerates every move from the torch's bank holds exactly the
      states one legal crossing away. */
  lemma EnumerationIsExact(people: People, s: State, states: seq<State>, moves: seq<Move>)
    requires Enumerates(people, s, states, moves)
    requires forall m :: IsMove(s.TorchSide(), m) ==> m in moves
    ensures forall t :: t in states <==> LegalStep(people, s, t)
  {
    forall t | t in states ensures LegalStep(people, s, t) {
      var i :| 0 <= i < |states| && states[i] == t;
      StepSound(people, s, moves[i]);
    }
    forall t | LegalStep(people, s, t) ensures t in states {
      StepComplete(people, s, t);
      var m :| IsMove(s.TorchSide(), m) && Movers(m) <= All(people) && t == Apply(people, s, m);
      var i :| 0 <= i < |moves| && moves[i] == m;
      assert states[i] == t;
    }
  }

  /** The pair moves listed part-way through the pair phase: those led by
      someone of `doneA`, and those of `a` with a partner of `doneB`. */
  ghost predicate PairsListed(side: set<Person>, moves: seq<Move>, doneA: set<Person>,
                              a: Person, doneB: set<Person>) {
    forall m :: m in moves <==>
      m.Pair? && IsMove(side, m) && (m.a in doneA || (m.a == a && m.b in doneB))
  }

  /** Visiting partner `b` of `a` lists Pair(a, b) when they differ, and nothing otherwise. */
  lemma PairsListedStep(side: set<Person>, moves: seq<Move>, doneA: set<Person>,
                        a: Person, doneB: set<Person>, b: Person)
    requires a in side && a !in doneA && b in side && b !in doneB
    requires PairsListed(side, moves, doneA, a, doneB)
    ensures Pair(a, b) !in moves
    ensures a != b ==> PairsListed(side, moves + [Pair(a, b)], doneA, a, doneB + {b})
    ensures a == b ==> PairsListed(side, moves, doneA, a, doneB + {b})
  {
  }

  /**
   The inner loop of the pair phase: `a`, a person of the torch's bank not yet
   paired, crosses with every other person of that bank.  On entry the list
   holds the pairs led by the people of `doneA`; on success it also holds the
   k - 1 pairs led by `a`.
   */
  method PairWithEach(people: People, s: State, a: Person, next: seq<State>,
                      ghost moves: seq<Move>, ghost doneA: set<Person>)
    returns (r: Outcome, ghost moves': seq<Move>)
    requires a in s.TorchSide() && a !in doneA
    requires Enumerates(people, s, next, moves)
    requires forall m :: m in moves <==> m.Pair? && IsMove(s.TorchSide(), m) && m.a in doneA
    ensures r.KeyError? ==> r.person in s.TorchSide() && r.person !in people
    ensures r.Generated? ==> Enumerates(people, s, r.states, moves')
    ensures r.Generated? ==> forall m :: m in moves' <==>
      m.Pair? && IsMove(s.TorchSide(), m) && (m.a in doneA || m.a == a)
    ensures r.Generated? ==> |moves'| == |moves| + |s.TorchSide()| - 1
  {
    var side := s.TorchSide();
    var acc := next;
    moves' := moves;
    var doneB: set<Person> := {};
    while doneB != side
      invariant doneB <= side
      invariant |moves'| == |moves| + |doneB - {a}|
      invariant Enumerates(people, s, acc, moves')
      invariant PairsListed(side, moves', doneA, a, doneB)
      decreases side - doneB
    {
      assert side - doneB != {};
      var b :| b in side - doneB;
      if a != b {
        if a !in people {
          r := KeyError(a);
          return;
        }
        if b !in people {
          r := KeyError(b);
          return;
        }
        assert doneB + {b} - {a} == (doneB - {a}) + {b};
        var m := Pair(a, b);
        PairsListedStep(side, moves', doneA, a, doneB, b);
        EnumeratesAppend(people, s, acc, moves', m);
        acc := acc + [Apply(people, s, m)];
        moves' := moves' + [m];
      } else {
        assert doneB + {b} - {a} == doneB - {a};
        PairsListedStep(side, moves', doneA, a, doneB, b);
      }
      doneB := doneB + {b};
    }
    assert side == (side - {a}) + {a};
    r := Generated(acc);
  }

  /**
   The first half of the generator: every ordered pair of two different
   people on the torch's bank crosses.  A person of such a pair who is
   missing from the table raises KeyError; with k people on the torch's bank
   there are k * (k - 1) pair moves.
   */
  method CrossInPairs(people: People, s: State) returns (r: Outcome, ghost moves: seq<Move>)
    ensures r.KeyError? ==> r.person in s.TorchSide() && r.person !in people
    ensures r.Generated? ==> Enumerates(people, s, r.states, moves)
    ensures r.Generated? ==> forall m :: m in moves <==> m.Pair? && IsMove(s.TorchSide(), m)
    ensures r.Generated? ==> |moves| == |s.TorchSide()| * (|s.TorchSide()| - 1)
  {
    var side := s.TorchSide();
    ghost var k := |side|;
    var next: seq<State> := [];
    moves := [];
    var doneA: set<Person> := {};
    while doneA != side
      invariant doneA <= side
      invariant |moves| == |doneA| * (k - 1)
      invariant Enumerates(people, s, next, moves)
      invariant forall m :: m in moves <==> m.Pair? && IsMove(side, m) && m.a in doneA
      decreases side - doneA
    {
      assert side - doneA != {};
      var a :| a in side - doneA;
      r, moves := PairWithEach(people, s, a, next, moves, doneA);
      if r.KeyError? {
        return;
      }
      next := r.states;
      doneA := doneA + {a};
    }
    r := Generated(next);
  }

  /**
   The move generator.  Every ordered pair of two different people on the
   torch's bank crosses, then every single person of that bank does; `moves`
   records which move produced each state.  A person on the torch's bank who
   is missing from the table raises KeyError, and nothing else does.  With k
   people on the torch's bank there are k * (k - 1) + k next states, and they
   are exactly the states one legal crossing away.
   */
  method GetNextStates(people: People, s: State) returns (r: Outcome, ghost moves: seq<Move>)
    ensures r.KeyError? <==> !(s.TorchSide() <= All(people))
    ensures r.KeyError? ==> r.person in s.TorchSide() && r.person !in people
    ensures r.Generated? ==> Enumerates(people, s, r.states, moves)
    ensures r.Generated? ==> forall m :: IsMove(s.TorchSide(), m) ==> m in moves
    ensures r.Generated? ==> |r.states| == |s.TorchSide()| * (|s.TorchSide()| - 1) + |s.TorchSide()|
    ensures r.Generated? ==> forall t :: t in r.states ==> t.flashlight == Opposite(s.flashlight)
    ensures r.Generated? ==> forall t :: t in r.states <==> LegalStep(people, s, t)
    ensures r.Generated? && Partitioned(people, s) ==> forall t :: t in r.states ==> Partitioned(people, t)
    ensures r.Generated? && ValidPeople(people) ==> forall t :: t in r.states ==> t.time > s.time
  {
    var side := s.TorchSide();
    ghost var k := |side|;
    r, moves := CrossInPairs(people, s);
    if r.KeyError? {
      return;
    }
    var next := r.states;

    // One person crosses alone.
    var doneP: set<Person> := {};
    while doneP != side
      invariant doneP <= side && doneP <= All(people)
      invariant |moves| == k * (k - 1) + |doneP|
      invariant Enumerates(people, s, next, moves)
      invariant forall m :: m in moves <==> IsMove(side, m) && (m.Pair? || m.p in doneP)
      decreases side - doneP
    {
      assert side - doneP != {};
      var p :| p in side - doneP;
      if p !in people {
        r := KeyError(p);
        return;
      }
      var m := Solo(p);
      EnumeratesAppend(people, s, next, moves, m);
      next := next + [Apply(people, s, m)];
      moves := moves + [m];
      doneP := doneP + {p};
    }

    EnumerationIsExact(people, s, next, moves);
    forall t | t in next
      ensures Partitioned(people, s) ==> Partitioned(people, t)
      ensures ValidPeople(people) ==> t.time > s.time
    {
      if Partitioned(people, s) {
        StepPreservesPartition(people, s, t);
      }
      if ValidPeople(people) {
        StepTakesTime(people, s, t);
      }
    }
    r := Generated(next);
  }

  /** The script's own call: the moves out of its start state, where all five
      people and the torch are on the left bank. */
  method ScriptFirstMoves() returns (r: Outcome)
    ensures r.Generated? && |r.states| == 25
    ensures forall t :: t in r.states ==>
      t.flashlight == R && Partitioned(PEOPLE, t) && t.time > 0 && |t.right| <= 2
  {
    ScriptTable();
    ghost var moves;
    r, moves := GetNextStates(PEOPLE, Start(PEOPLE));
    forall t | t in r.states ensures |t.right| <= 2 {
      var i :| 0 <= i < |r.states| && r.states[i] == t;
      MoveShape(All(PEOPLE), moves[i]);
    }
  }
}
