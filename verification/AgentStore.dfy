/**
 * The serial section of the agent (src/dp/agent.ts): load, change a clone, check the
 * invariants, save by compare-and-swap, and judge again from scratch when somebody else saved.
 */
module AgentStore {
  import opened Wrappers
  import opened Operation
  import opened Agent
  import opened ApplyMachine

  const CAS_RETRY_LIMIT: nat := 8

  datatype Written = Ended(save: Save) | GaveUp

  class DpAgent {
    var state: State
    var version: nat
    /** How many saves other processes may still slip in. */
    var contenders: nat
    /** Every state that was ever durable, oldest first. */
    ghost var saved: seq<State>

    ghost predicate Valid()
      reads this
    {
      |saved| == version + 1 && saved[version] == state
    }

    constructor (contenders: nat)
      ensures Valid() && saved == [INITIAL] && this.contenders == contenders
    {
      state := INITIAL;
      version := 0;
      this.contenders := contenders;
      saved := [INITIAL];
    }

    /** Another process saves something, or does not. */
    method Contend()
      requires Valid()
      modifies this
      ensures Valid() && old(saved) <= saved && contenders <= old(contenders)
      ensures version == old(version) <==> saved == old(saved)
      ensures old(contenders) == 0 ==> saved == old(saved)
    {
      var saves: bool, theirs: State := *, *;
      if saves && contenders > 0 {
        state := theirs;
        version := version + 1;
        contenders := contenders - 1;
        saved := saved + [theirs];
      }
    }

    /** The store's compare-and-swap: only the next version is accepted. */
    method Save(next: State, at: nat) returns (ok: bool)
      requires Valid()
      modifies this
      ensures Valid() && contenders == old(contenders)
      ensures ok <==> at == old(version) + 1
      ensures saved == if ok then old(saved) + [next] else old(saved)
    {
      ok := at == version + 1;
      if ok {
        state := next;
        version := at;
        saved := saved + [next];
      }
    }

    /**
     * One serial section.  What is saved follows, with nothing in between, the state it was
     * judged on: no other process's save is ever lost or judged on stale ground.
     */
    method Serial(c: Call) returns (r: Written)
      requires Valid()
      modifies this
      ensures Valid() && old(saved) <= saved
      ensures r.Ended? && r.save.Saved? ==>
        |saved| >= 2 && Durable(saved[|saved| - 2], c) == r.save && state == r.save.state
      ensures r.Ended? && !r.save.Saved? ==> Durable(state, c) == r.save
      // it gives up only after it lost against somebody else's save nine times
      ensures r.GaveUp? ==> |saved| >= |old(saved)| + 9
      ensures old(contenders) == 0 ==> r == Ended(Durable(old(state), c)) && contenders == 0
      ensures old(contenders) == 0 ==> state == if r.save.Saved? then r.save.state else old(state)
    {
      hide Durable;
      var attempt: nat := 0;
      while true
        invariant Valid() && old(saved) <= saved && contenders <= old(contenders)
        invariant attempt <= CAS_RETRY_LIMIT && |saved| >= |old(saved)| + attempt
        invariant old(contenders) == 0 ==> saved == old(saved)
        decreases CAS_RETRY_LIMIT - attempt
      {
        var seen, at := state, version;
        var judged := Durable(seen, c);
        if !judged.Saved? { return Ended(judged); }
        Contend();
        var ok := Save(judged.state, at + 1);
        if ok { return Ended(judged); }
        if attempt >= CAS_RETRY_LIMIT { return GaveUp; }
        attempt := attempt + 1;
      }
    }
  }
}
