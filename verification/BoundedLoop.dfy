// The for_each loop's goroutines and the semaphore that bounds them, step by step; and the
// copy of the nested task's parameters each iteration gets.
module BoundedLoop {
  import opened Basics
  import opened JobModel
  import opened NestedRuns

  /** An iteration's life: it is spawned holding a token, stores its result, gives the token
      back, and tells the waiting parent that it is gone. */
  datatype Stage = Unspawned | InBody | Stored | Released | Gone

  /** The loop: n iterations under a limit; result i is what body i returns. */
  datatype Loop = Loop(n: nat, concurrency: int, body: nat -> TaskRun)

  /** tokens counts what the semaphore's channel holds; ran is a history of body starts. */
  datatype State = State(
    next: nat, stages: seq<Stage>, results: seq<Option<TaskRun>>, tokens: nat, ran: seq<nat>, joined: bool)

  datatype Action = Spawn | Store(i: nat) | Release(i: nat) | Leave(i: nat) | Join

  function Limit(l: Loop): nat { BodyLimit(l.concurrency, l.n) }

  function Start(l: Loop): State
  {
    State(0, seq(l.n, i => Unspawned), seq(l.n, i => None), 0, seq(l.n, i => 0), false)
  }

  predicate Is(s: State, i: nat, stage: Stage) { i < |s.stages| && s.stages[i] == stage }

  predicate Shaped(l: Loop, s: State) { |s.stages| == |s.results| == |s.ran| == l.n && s.next <= l.n }

  predicate Enabled(l: Loop, s: State, a: Action)
    requires Shaped(l, s)
  {
    match a
    case Spawn => s.next < l.n && s.tokens < Limit(l)
    case Store(i) => Is(s, i, InBody)
    case Release(i) => Is(s, i, Stored) && s.tokens > 0
    case Leave(i) => Is(s, i, Released)
    case Join => s.next == l.n && !s.joined && forall i | 0 <= i < l.n :: s.stages[i] == Gone
  }

  function Step(l: Loop, s: State, a: Action): State
    requires Shaped(l, s) && Enabled(l, s, a)
  {
    match a
    case Spawn =>
      s.(next := s.next + 1, stages := s.stages[s.next := InBody], tokens := s.tokens + 1,
         ran := s.ran[s.next := s.ran[s.next] + 1])
    case Store(i) => s.(stages := s.stages[i := Stored], results := s.results[i := Some(l.body(i))])
    case Release(i) => s.(stages := s.stages[i := Released], tokens := s.tokens - 1)
    case Leave(i) => s.(stages := s.stages[i := Gone])
    case Join => s.(joined := true)
  }

  /** The iterations at one stage. */
  ghost function AtStage(s: State, stage: Stage): set<nat> { set i: nat | i < |s.stages| && s.stages[i] == stage }

  /** The iterations that hold a token. */
  ghost function Holders(s: State): set<nat> { AtStage(s, InBody) + AtStage(s, Stored) }

  /** Stages, starts and results go together. */
  ghost predicate Consistent(l: Loop, s: State)
  {
    && Shaped(l, s)
    && (forall i | 0 <= i < l.n :: s.stages[i] == Unspawned <==> i >= s.next)
    && (forall i | 0 <= i < l.n :: s.ran[i] == if s.stages[i] == Unspawned then 0 else 1)
    && (forall i | 0 <= i < l.n ::
         s.results[i] == if s.stages[i] in {Stored, Released, Gone} then Some(l.body(i)) else None)
    && (s.joined ==> s.next == l.n && forall i | 0 <= i < l.n :: s.stages[i] == Gone)
  }

  ghost predicate Inv(l: Loop, s: State) { Consistent(l, s) && s.tokens == |Holders(s)| <= Limit(l) }

  lemma StartInv(l: Loop)
    ensures Inv(l, Start(l))
  {
    assert Holders(Start(l)) == {};
  }

  lemma {:induction false} HoldersAfter(l: Loop, s: State, a: Action)
    requires Consistent(l, s) && Enabled(l, s, a)
    ensures
      Holders(Step(l, s, a)) ==
        match a
        case Spawn => Holders(s) + {s.next}
        case Release(i) => Holders(s) - {i}
        case _ => Holders(s)
    ensures a.Spawn? ==> s.next !in Holders(s)
    ensures a.Release? ==> a.i in Holders(s)
  {
  }

  lemma {:induction false} StepConsistent(l: Loop, s: State, a: Action)
    requires Consistent(l, s) && Enabled(l, s, a)
    ensures Consistent(l, Step(l, s, a))
  {
    hide Limit;
  }

  lemma {:induction false} StepInv(l: Loop, s: State, a: Action)
    requires Inv(l, s) && Enabled(l, s, a)
    ensures Inv(l, Step(l, s, a))
  {
    hide Holders, Consistent;
    StepConsistent(l, s, a);
    HoldersAfter(l, s, a);
  }

  /** A schedule of the loop: any order of steps from the start. */
  ghost predicate IsRun(l: Loop, states: seq<State>, actions: seq<Action>)
  {
    && |states| == |actions| + 1 && states[0] == Start(l)
    && forall i | 0 <= i < |actions| ::
         Shaped(l, states[i]) && Enabled(l, states[i], actions[i]) && states[i + 1] == Step(l, states[i], actions[i])
  }

  lemma {:induction false} InvAlways(l: Loop, states: seq<State>, actions: seq<Action>, i: nat)
    requires IsRun(l, states, actions) && i < |states|
    ensures Inv(l, states[i])
  {
    hide Inv, Step, Enabled, Start;
    if i == 0 {
      StartInv(l);
    } else {
      InvAlways(l, states, actions, i - 1);
      assert states[i - 1 + 1] == Step(l, states[i - 1], actions[i - 1]);
      StepInv(l, states[i - 1], actions[i - 1]);
    }
  }

  /** Never more bodies in flight than the limit: at least one, at most the concurrency asked
      for, and never more than there are inputs. */
  lemma {:induction false} BodiesAreBounded(l: Loop, states: seq<State>, actions: seq<Action>, i: nat)
    requires IsRun(l, states, actions) && i < |states|
    ensures |AtStage(states[i], InBody)| <= Min(if l.concurrency <= 0 then 1 else l.concurrency, l.n)
  {
    InvAlways(l, states, actions, i);
    SubsetSize(AtStage(states[i], InBody), Holders(states[i]));
  }

  /** When the parent has joined, every body ran exactly once and every result is in place, in
      input order, whatever order the iterations finished in. */
  lemma {:induction false} JoinedIsComplete(l: Loop, states: seq<State>, actions: seq<Action>, i: nat)
    requires IsRun(l, states, actions) && i < |states| && states[i].joined
    ensures |states[i].results| == |states[i].ran| == l.n
    ensures forall k | 0 <= k < l.n :: states[i].results[k] == Some(l.body(k)) && states[i].ran[k] == 1
  {
    InvAlways(l, states, actions, i);
  }

  lemma QuietMeansGone(l: Loop, s: State)
    requires Consistent(l, s)
    requires AtStage(s, InBody) == {} && AtStage(s, Stored) == {} && AtStage(s, Released) == {}
    ensures Holders(s) == {}
    ensures forall i: nat | i < s.next :: s.stages[i] == Gone
  {
    forall i: nat | i < s.next ensures s.stages[i] == Gone {
      assert i !in AtStage(s, InBody) && i !in AtStage(s, Stored) && i !in AtStage(s, Released);
    }
  }

  /** No deadlock: until the parent has joined, some step is possible. */
  lemma {:induction false} NoDeadlock(l: Loop, s: State)
    requires Inv(l, s) && !s.joined
    ensures exists a :: Enabled(l, s, a)
  {
    if AtStage(s, InBody) != {} {
      var i :| i in AtStage(s, InBody);
      assert Enabled(l, s, Store(i));
    } else if AtStage(s, Stored) != {} {
      var i :| i in AtStage(s, Stored);
      assert i in Holders(s);
      assert Enabled(l, s, Release(i));
    } else if AtStage(s, Released) != {} {
      var i :| i in AtStage(s, Released);
      assert Enabled(l, s, Leave(i));
    } else {
      QuietMeansGone(l, s);
      assert Enabled(l, s, if s.next < l.n then Spawn else Join);
    }
  }

  function StepsLeft(stage: Stage): nat
  {
    match stage
    case Unspawned => 4
    case InBody => 3
    case Stored => 2
    case Released => 1
    case Gone => 0
  }

  ghost function AllLeft(stages: seq<Stage>): nat
  {
    if stages == [] then 0 else AllLeft(stages[..|stages| - 1]) + StepsLeft(stages[|stages| - 1])
  }

  lemma {:induction false} LeftAfterUpdate(stages: seq<Stage>, i: nat, stage: Stage)
    requires i < |stages|
    ensures AllLeft(stages[i := stage]) == AllLeft(stages) - StepsLeft(stages[i]) + StepsLeft(stage)
    decreases |stages|
  {
    var last := |stages| - 1;
    if i < last {
      LeftAfterUpdate(stages[..last], i, stage);
      assert stages[i := stage][..last] == stages[..last][i := stage];
    } else {
      assert stages[i := stage][..last] == stages[..last];
    }
  }

  ghost function Left(s: State): nat { AllLeft(s.stages) + if s.joined then 0 else 1 }

  lemma {:induction false} StepsRunOut(l: Loop, s: State, a: Action)
    requires Inv(l, s) && Enabled(l, s, a)
    ensures Left(Step(l, s, a)) == Left(s) - 1
  {
    hide Holders, Limit;
    match a
    case Spawn => LeftAfterUpdate(s.stages, s.next, InBody);
    case Store(i) => LeftAfterUpdate(s.stages, i, Stored);
    case Release(i) => LeftAfterUpdate(s.stages, i, Released);
    case Leave(i) => LeftAfterUpdate(s.stages, i, Gone);
    case Join =>
  }

  lemma {:induction false} NothingDone(stages: seq<Stage>)
    requires forall i | 0 <= i < |stages| :: stages[i] == Unspawned
    ensures AllLeft(stages) == 4 * |stages|
  {
    if stages != [] {
      NothingDone(stages[..|stages| - 1]);
    }
  }

  /** Every step uses one up: a schedule has 4n + 1 steps, of which i are taken after i actions, and
      then the loop is over. */
  lemma {:induction false} SchedulesEnd(l: Loop, states: seq<State>, actions: seq<Action>, i: nat)
    requires IsRun(l, states, actions) && i < |states|
    ensures i + Left(states[i]) == 4 * l.n + 1 && (Left(states[i]) == 0 <==> states[i].joined)
  {
    hide Inv, Step, Enabled;
    InvAlways(l, states, actions, i);
    if i == 0 {
      NothingDone(Start(l).stages);
    } else {
      SchedulesEnd(l, states, actions, i - 1);
      InvAlways(l, states, actions, i - 1);
      assert states[i - 1 + 1] == Step(l, states[i - 1], actions[i - 1]);
      StepsRunOut(l, states[i - 1], actions[i - 1]);
    }
    NothingLeft(l, states[i]);
  }

  lemma NothingLeft(l: Loop, s: State)
    requires Inv(l, s)
    ensures Left(s) == 0 <==> s.joined
  {
    hide Holders, Limit;
    if s.joined {
      AllGone(s.stages);
    }
  }

  lemma {:induction false} AllGone(stages: seq<Stage>)
    requires forall i | 0 <= i < |stages| :: stages[i] == Gone
    ensures AllLeft(stages) == 0
  {
    if stages != [] {
      AllGone(stages[..|stages| - 1]);
    }
  }

  // -------------------------------------------------------------- parameters are copied

  /** An iteration's parameters: a fresh list with the input in place; the shared list, which
      other iterations read at the same time, is only read. */
  method SubstituteParams(shared: array<string>, input: string) returns (own: array<string>)
    ensures fresh(own) && own.Length == shared.Length
    ensures forall i | 0 <= i < own.Length :: own[i] == WithInput(shared[i], input)
    ensures shared[..] == old(shared[..])
  {
    own := new string[shared.Length](_ => "");
    for i := 0 to shared.Length
      invariant forall j | 0 <= j < i :: own[j] == WithInput(shared[j], input)
    {
      own[i] := WithInput(shared[i], input);
    }
  }

  /** A text without the placeholder reaches every iteration as it is. */
  lemma {:induction false} NoPlaceholderNoChange(text: string, input: string)
    requires PlaceholderFree(text)
    ensures WithInput(text, input) == text
    decreases |text|
  {
    hide At;
    if text != "" {
      assert !At(text, 0, "{{input}}");
      forall i: nat ensures !At(text[1..], i, "{{input}}") {
        AtTail(text, i, "{{input}}");
      }
      NoPlaceholderNoChange(text[1..], input);
      assert text == [text[0]] + text[1..];
    }
  }

  lemma AtTail(text: string, i: nat, word: string)
    requires text != ""
    ensures At(text[1..], i, word) == At(text, i + 1, word)
  {
    if i + 1 + |word| <= |text| {
      assert text[i + 1..i + 1 + |word|] == text[1..][i..i + |word|];
    }
  }

  ghost predicate PlaceholderFree(text: string) { forall i: nat :: !At(text, i, "{{input}}") }

  /** The placeholder never overlaps itself, so none straddles the end of a text without one. */
  lemma NoneAtTheJoint(p: string, rest: string)
    requires p != "" && PlaceholderFree(p)
    ensures !At(p + "{{input}}" + rest, 0, "{{input}}")
  {
    var word := "{{input}}";
    var text := p + word + rest;
    assert !At(p, 0, word);
    if |p| >= 9 {
      assert text[0..9] == p[0..9];
    } else {
      var m := if |p| == 1 then 2 else |p|;
      assert text[0..9][m] == '{' && word[m] != '{';
    }
  }

  /** The first placeholder becomes the input, what comes before it stays, and the scan goes on
      behind it. */
  lemma {:induction false} PlaceholderReplaced(p: string, rest: string, input: string)
    requires PlaceholderFree(p)
    ensures WithInput(p + "{{input}}" + rest, input) == p + input + WithInput(rest, input)
    decreases |p|
  {
    hide At;
    var word := "{{input}}";
    var text := p + word + rest;
    if p == "" {
      assert text == word + rest && text[9..] == rest;
      AtStart(word, rest);
      assert "" + input == input;
    } else {
      NoneAtTheJoint(p, rest);
      assert text[1..] == p[1..] + word + rest;
      forall i: nat ensures !At(p[1..], i, word) {
        AtTail(p, i, word);
      }
      PlaceholderReplaced(p[1..], rest, input);
      assert [p[0]] + (p[1..] + input + WithInput(rest, input)) == p + input + WithInput(rest, input);
    }
  }

  lemma AtStart(word: string, rest: string)
    ensures At(word + rest, 0, word)
  {
    assert (word + rest)[0..|word|] == word;
  }

}
