/**
 * The effects the runner awaits (the `Effects` interface of src/dp/apply.ts), with every answer
 * left open, and the steps one runner takes alone: the bridge from code to state machine.
 */
module ApplyEngine {
  import opened Wrappers
  import opened Operation
  import opened Agent
  import opened ApplyMachine
  import opened ApplyInvariant
  import opened ApplySafety
  import opened ApplySteps
  import opened ApplyTheorems

  // ------------------------------------------------------------------ the engine

  predicate Proves(seen: Reading, generation: Name) {
    seen.Read? && ProvesActivation(seen.evidence, generation)
  }

  /** The effects, as questions to the engine. */
  datatype Question =
    | AskPreflight(op: Op)
    | AskPublished
    | AskPublish(record: Record)
    | AskLoad(tuple: Tuple)
    | AskSignal
    | AskServed

  datatype Reply = Reply(question: Question, answer: Answer)

  /** What the engine shows and how much trouble it still has in store. */
  class Engine {
    var published: PublishedState
    /** the last reading of the engine */
    var last: Reading
    /** how many foreign publications may still land */
    var foreign: nat
    /** how often a reading may still fall back from proving a generation to not proving it */
    var flips: nat
    /** every question so far, with the answer it really got */
    ghost var heard: seq<Reply>

    /** A late or foreign publication lands, or does not. */
    method Land()
      modifies this`published, this`foreign
      ensures foreign <= old(foreign)
      ensures foreign == old(foreign) ==> published == old(published)
    {
      var lands: bool, theirs: PublishedState := *, *;
      if lands && foreign > 0 {
        published := theirs;
        foreign := foreign - 1;
      }
    }

    /** Anything the runner awaits but a publication of its own and a reading of the engine. */
    method Ask(q: Question) returns (answer: Answer)
      modifies this`published, this`foreign, this`heard
      ensures foreign <= old(foreign)
      ensures foreign == old(foreign) ==> published == old(published)
      ensures heard == old(heard) + [Reply(q, answer)]
    {
      answer := *;
      heard := heard + [Reply(q, answer)];
      Land();
    }

    /** Publish: refused by the lease, cut off by its budget, or landed. */
    method Publish(r: Record) returns (answer: Answer)
      modifies this`published, this`heard
      ensures published == if answer == No || answer == Late then old(published) else OwnedBy(r)
      ensures heard == old(heard) + [Reply(AskPublish(r), answer)]
    {
      answer := *;
      heard := heard + [Reply(AskPublish(r), answer)];
      if answer != No && answer != Late { published := OwnedBy(r); }
    }

    /** Read the engine once; falling back from proof costs a flip. */
    method ObserveActivation(generation: Name) returns (seen: Reading)
      modifies this`last, this`flips, this`heard
      ensures seen == last && flips <= old(flips)
      ensures Proves(old(last), generation) && !Proves(seen, generation) ==> flips < old(flips)
      ensures heard == old(heard) + [Reply(AskServed, Saw(seen))]
    {
      seen := *;
      if Proves(last, generation) && !Proves(seen, generation) {
        if flips == 0 { seen := last; } else { flips := flips - 1; }
      }
      last := seen;
      heard := heard + [Reply(AskServed, Saw(seen))];
    }
  }

  // ------------------------------------------------------------------ what a step hears

  /** The question behind an await; none where the actor only waits for its own agent. */
  function QuestionOf(pc: Pc): Option<Question> {
    match pc
    case Preflighting(turn) => Some(AskPreflight(turn.j.op))
    case LookingUp(_) => Some(AskPublished)
    case Publishing(turn) => Some(AskPublish(RecordOf(turn.j.op)))
    case Loading(turn, _, todo, _) => if todo == [] then None else Some(AskLoad(TupleFor(turn.j.op, todo[0])))
    case ReadingWorld(_) => Some(AskServed)
    case Signalling(_, _, _) => Some(AskSignal)
    case Awaiting(_) => Some(AskServed)
    case Confirming(_) => Some(AskPublished)
    case Proving(_, _) => Some(AskServed)
    case _ => None
  }

  /** The two awaits that read the engine repeatedly. */
  predicate Polls(pc: Pc) { pc.Awaiting? || pc.Proving? }

  function SeenIn(r: Reply): Option<Evidence> {
    if r.answer.Saw? && r.answer.reading.Read? then r.answer.reading.evidence else None
  }

  /** What polling comes back with: the last reading. */
  function LastSeen(said: seq<Reply>): Option<Evidence> {
    if said == [] then None else SeenIn(said[|said| - 1])
  }

  /** Polling stops at the first reading that proves the generation, and otherwise reads `polls` times. */
  predicate Polled(said: seq<Reply>, polls: nat, generation: Name) {
    && |said| <= polls
    && (forall i :: 0 <= i < |said| - 1 ==> !ProvesActivation(SeenIn(said[i]), generation))
    && (|said| < polls ==> said != [] && ProvesActivation(LastSeen(said), generation))
  }

  /** These replies, in this order, are what the actor awaits here. */
  predicate Listens(polls: nat, pc: Pc, said: seq<Reply>) {
    match QuestionOf(pc)
    case None => said == []
    case Some(q) =>
      && (forall r | r in said :: r.question == q)
      && (if Polls(pc) then Polled(said, polls, pc.turn.j.op.generation) else |said| == 1)
  }

  /** The answer the state machine takes for them. */
  function AnswerTo(pc: Pc, said: seq<Reply>): Answer {
    if Polls(pc) then Saw(Read(LastSeen(said)))
    else if said != [] then said[|said| - 1].answer
    else Yes
  }

  // ------------------------------------------------------------------ one actor alone

  /** Where an actor stands, and all the engine has said until then. */
  datatype Scene = Scene(w: World, pc: Pc, heard: seq<Reply>)

  datatype Nudge = Took(said: seq<Reply>) | Drifted(published: PublishedState)

  ghost function Nudged(k: Scene, n: Nudge): Scene {
    match n
    case Took(said) =>
      var m := Act(k.w, k.pc, AnswerTo(k.pc, said));
      Scene(m.w, m.pc, k.heard + said)
    case Drifted(published) => k.(w := k.w.(published := published))
  }

  ghost function Steps(a: Scene, path: seq<Nudge>): Scene
    decreases |path|
  {
    if path == [] then a else Nudged(Steps(a, path[..|path| - 1]), path[|path| - 1])
  }

  /** At every step of the path the engine said what the actor was waiting for. */
  ghost predicate Heeds(polls: nat, a: Scene, path: seq<Nudge>)
    decreases |path|
  {
    path != [] ==>
      var front, n := path[..|path| - 1], path[|path| - 1];
      Heeds(polls, a, front) && (n.Took? ==> Listens(polls, Steps(a, front).pc, n.said))
  }

  /** Steps of this actor, taken by what the engine really said, lead from `a` to `b`; publications may drift in between. */
  ghost predicate Reaches(polls: nat, a: Scene, b: Scene) {
    exists path :: Steps(a, path) == b && Heeds(polls, a, path)
  }

  lemma Starts(polls: nat, a: Scene)
    ensures Reaches(polls, a, a)
  {
    assert Steps(a, []) == a && Heeds(polls, a, []);
  }

  lemma OneMore(polls: nat, a: Scene, path: seq<Nudge>, n: Nudge)
    requires Heeds(polls, a, path) && (n.Took? ==> Listens(polls, Steps(a, path).pc, n.said))
    ensures Steps(a, path + [n]) == Nudged(Steps(a, path), n) && Heeds(polls, a, path + [n])
  {
    hide Nudged, Listens;
    assert (path + [n])[..|path|] == path;
  }

  /** The next await comes back with these replies. */
  lemma Takes(polls: nat, a: Scene, b: Scene, said: seq<Reply>)
    requires Reaches(polls, a, b) && Listens(polls, b.pc, said)
    ensures var m := Act(b.w, b.pc, AnswerTo(b.pc, said)); Reaches(polls, a, Scene(m.w, m.pc, b.heard + said))
  {
    hide Act, Steps, Heeds, Listens, AnswerTo;
    var path :| Steps(a, path) == b && Heeds(polls, a, path);
    OneMore(polls, a, path, Took(said));
  }

  /** A step that waits for the agent only. */
  lemma Moves(polls: nat, a: Scene, b: Scene)
    requires Reaches(polls, a, b) && QuestionOf(b.pc).None?
    ensures var m := Act(b.w, b.pc, Yes); Reaches(polls, a, Scene(m.w, m.pc, b.heard))
  {
    hide Act, Reaches;
    Takes(polls, a, b, []);
    assert b.heard + [] == b.heard;
  }

  /** A step that waits for one reply. */
  lemma Hears(polls: nat, a: Scene, b: Scene, q: Question, answer: Answer)
    requires Reaches(polls, a, b) && QuestionOf(b.pc) == Some(q) && !Polls(b.pc)
    ensures var m := Act(b.w, b.pc, answer); Reaches(polls, a, Scene(m.w, m.pc, b.heard + [Reply(q, answer)]))
  {
    hide Act, Reaches;
    Takes(polls, a, b, [Reply(q, answer)]);
  }

  /** A step that polls the engine. */
  lemma HearsAll(polls: nat, a: Scene, b: Scene, said: seq<Reply>)
    requires Reaches(polls, a, b) && Polls(b.pc) && Polled(said, polls, b.pc.turn.j.op.generation)
    requires forall r | r in said :: r.question == AskServed
    ensures var m := Act(b.w, b.pc, Saw(Read(LastSeen(said)))); Reaches(polls, a, Scene(m.w, m.pc, b.heard + said))
  {
    hide Act, Reaches;
    Takes(polls, a, b, said);
  }

  /** A publication drifts in while the actor waits. */
  lemma Drifts(polls: nat, a: Scene, b: Scene, published: PublishedState)
    requires Reaches(polls, a, b)
    ensures Reaches(polls, a, b.(w := b.w.(published := published)))
  {
    hide Act, Steps, Heeds;
    var path :| Steps(a, path) == b && Heeds(polls, a, path);
    OneMore(polls, a, path, Drifted(published));
  }

  lemma {:induction false} Joins(polls: nat, a: Scene, b: Scene, path: seq<Nudge>)
    requires Reaches(polls, a, b) && Heeds(polls, b, path)
    ensures Reaches(polls, a, Steps(b, path))
    decreases |path|
  {
    hide Act, Listens, AnswerTo, Reaches;
    if path != [] {
      Joins(polls, a, b, path[..|path| - 1]);
      var k := Steps(b, path[..|path| - 1]);
      if path[|path| - 1].Took? { Takes(polls, a, k, path[|path| - 1].said); } else { Drifts(polls, a, k, path[|path| - 1].published); }
    }
  }

  lemma Chains(polls: nat, a: Scene, b: Scene, c: Scene)
    requires Reaches(polls, a, b) && Reaches(polls, b, c)
    ensures Reaches(polls, a, c)
  {
    hide Act, Steps, Heeds;
    var path :| Steps(b, path) == c && Heeds(polls, b, path);
    Joins(polls, a, b, path);
  }

  /** A runner alone is a run of the whole system, so everything proved of all runs holds of it. */
  lemma {:induction false} AloneIsARun(published: PublishedState, run: seq<Happening>, who: nat, heard: seq<Reply>, path: seq<Nudge>)
    requires who in RunOf(published, run).actors
    ensures var sys := RunOf(published, run); var m := Steps(Scene(sys.w, sys.actors[who], heard), path);
      exists more :: RunOf(published, run + more) == System(m.w, sys.actors[who := m.pc])
    decreases |path|
  {
    hide Act, AnswerTo;
    var sys := RunOf(published, run);
    var a := Scene(sys.w, sys.actors[who], heard);
    var m := Steps(a, path);
    if path == [] {
      assert run + [] == run;
      assert sys.actors[who := sys.actors[who]] == sys.actors;
    } else {
      var front, n := path[..|path| - 1], path[|path| - 1];
      AloneIsARun(published, run, who, heard, front);
      var k := Steps(a, front);
      var more :| RunOf(published, run + more) == System(k.w, sys.actors[who := k.pc]);
      var h := if n.Took? then Turned(who, AnswerTo(k.pc, n.said)) else Drift(n.published);
      assert (run + (more + [h]))[..|run + more|] == run + more;
      assert run + (more + [h]) == (run + more) + [h];
      assert sys.actors[who := k.pc][who := m.pc] == sys.actors[who := m.pc];
      assert RunOf(published, run + (more + [h])) == System(m.w, sys.actors[who := m.pc]);
    }
  }
}
