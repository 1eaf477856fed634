/**
  The state / transition container of src/afr-vexu-lib/state.cpp.

  The actions a state schedules, the guards of its transitions and its entry
  callback are opaque to it (an `action&`, two `std::function`s). Each is
  modelled as a small object that only records what the state does to it:
  an `Action` counts the `update()` calls it receives, a `Guard` holds the
  truth value its closure would return right now, and an `EntryCallback`
  logs the states it is invoked with.
 */
module StateMachine {

  /** Stand-in for an `action&`: counts the `update()` calls it has received. */
  class Action {
    var updates: nat

    constructor ()
      ensures updates == 0
    {
      updates := 0;
    }

    method Update()
      modifies this
      ensures updates == old(updates) + 1
    {
      updates := updates + 1;
    }
  }

  /** Stand-in for a `std::function<bool()>`: the value it would return, set by whatever it reads. */
  class Guard {
    var holds: bool

    constructor (holds: bool)
      ensures this.holds == holds
    {
      this.holds := holds;
    }
  }

  /** Stand-in for a `std::function<void(const state&)>`: logs every state it is called with. */
  class EntryCallback {
    var received: seq<State>

    constructor ()
      ensures received == []
    {
      received := [];
    }

    method Invoke(previous: State)
      modifies this
      ensures received == old(received) + [previous]
    {
      received := received + [previous];
    }
  }

  /** A `transition`: a guard and the name of the state to move to. Immutable. */
  class Transition {
    const condition: Guard
    const nextState: string

    constructor (condition: Guard, nextState: string)
      ensures this.condition == condition && this.nextState == nextState
    {
      this.condition := condition;
      this.nextState := nextState;
    }

    /** `should_change_state()`: whatever the guard returns. */
    method ShouldChangeState() returns (b: bool)
      ensures b == condition.holds
    {
      b := condition.holds;
    }

    /** `get_next_state()`: the destination given at construction (the log line is left out). */
    method GetNextState() returns (name: string)
      ensures name == nextState
    {
      name := nextState;
    }
  }

  /** The identifiers in `keys` that `actionMap` binds to `a`. */
  ghost function BoundTo(actionMap: map<string, Action>, keys: set<string>, a: Action): set<string>
    requires keys <= actionMap.Keys
  {
    set id | id in keys && actionMap[id] == a
  }

  /** Binding one more identifier adds one to the count of exactly the action it is bound to. */
  lemma BoundToGrows(actionMap: map<string, Action>, keys: set<string>, id: string, a: Action)
    requires keys <= actionMap.Keys && id in actionMap && id !in keys
    ensures |BoundTo(actionMap, keys + {id}, a)| ==
            |BoundTo(actionMap, keys, a)| + (if actionMap[id] == a then 1 else 0)
  {
    if actionMap[id] == a {
      assert BoundTo(actionMap, keys + {id}, a) == BoundTo(actionMap, keys, a) + {id};
    } else {
      assert BoundTo(actionMap, keys + {id}, a) == BoundTo(actionMap, keys, a);
    }
  }

  /** A `state`: named actions, ordered transitions, an entry callback. */
  class State {
    const actionMap: map<string, Action>
    const transitions: seq<Transition>
    const onEntry: EntryCallback

    constructor (actionMap: map<string, Action>, transitions: seq<Transition>, onEntry: EntryCallback)
      ensures this.actionMap == actionMap && this.transitions == transitions && this.onEntry == onEntry
    {
      this.actionMap := actionMap;
      this.transitions := transitions;
      this.onEntry := onEntry;
    }

    /**
      `update_actions()`: one `update()` per entry of the map, in an unspecified
      order. An action bound under several identifiers is updated once per
      identifier; no object outside the map is touched.
     */
    method UpdateActions()
      modifies actionMap.Values
      ensures forall a :: a in actionMap.Values ==>
                a.updates == old(a.updates) + |BoundTo(actionMap, actionMap.Keys, a)|
    {
      var remaining := actionMap.Keys;
      while remaining != {}
        invariant remaining <= actionMap.Keys
        invariant forall a :: a in actionMap.Values ==>
                    a.updates == old(a.updates) + |BoundTo(actionMap, actionMap.Keys - remaining, a)|
        decreases remaining
      {
        var id :| id in remaining;
        ghost var done := actionMap.Keys - remaining;
        actionMap[id].Update();
        remaining := remaining - {id};
        forall a | a in actionMap.Values
          ensures |BoundTo(actionMap, actionMap.Keys - remaining, a)| ==
                  |BoundTo(actionMap, done, a)| + (if actionMap[id] == a then 1 else 0)
        {
          assert actionMap.Keys - remaining == done + {id};
          BoundToGrows(actionMap, done, id, a);
        }
      }
      assert actionMap.Keys - remaining == actionMap.Keys;
    }

    /** `on_state_entry(previous)`: invokes the stored callback with `previous`, and nothing else. */
    method OnStateEntry(previous: State)
      modifies onEntry
      ensures onEntry.received == old(onEntry.received) + [previous]
    {
      onEntry.Invoke(previous);
    }

    /** `get_action(identifier)`: the action bound to it (`.at` throws on an unbound identifier). */
    function GetAction(identifier: string): (a: Action)
      requires identifier in actionMap
      ensures a in actionMap.Values && actionMap[identifier] == a
    {
      actionMap[identifier]
    }

    /** `get_transitions()`: the transitions given at construction, in their order. */
    function GetTransitions(): (ts: seq<Transition>)
      ensures ts == transitions
    {
      transitions
    }
  }

  /** With no identifier sharing an action, `update_actions` updates every action exactly once. */
  lemma UnaliasedUpdatesOnce(s: State, a: Action)
    requires forall x, y :: x in s.actionMap && y in s.actionMap && x != y ==> s.actionMap[x] != s.actionMap[y]
    requires a in s.actionMap.Values
    ensures |BoundTo(s.actionMap, s.actionMap.Keys, a)| == 1
  {
    var id :| id in s.actionMap && s.actionMap[id] == a;
    assert BoundTo(s.actionMap, s.actionMap.Keys, a) == {id};
  }
}
