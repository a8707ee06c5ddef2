/** `TurnStore`: the in-memory registry of turns, keyed by turn id. It has
    no operation that removes an entry. */
module Store {
  import opened Wrappers
  import opened Models

  class TurnStore {
    /** The `_turns` dict. */
    var turns: map<string, Turn>

    /** Every entry is filed under its own turn's id. */
    ghost predicate Valid()
      reads this
    {
      forall id :: id in turns ==> turns[id].turnId == id
    }

    constructor ()
      ensures Valid() && turns == map[]
    {
      turns := map[];
    }

    /** `put(turn)`: files the turn under its id, replacing any earlier
        entry for that id; every other entry stays as it was. */
    method Put(turn: Turn)
      requires Valid()
      modifies this
      ensures Valid()
      ensures turns.Keys == old(turns).Keys + {turn.turnId}
      ensures turns[turn.turnId] == turn
      ensures forall id :: id in old(turns) && id != turn.turnId ==> turns[id] == old(turns)[id]
    {
      turns := turns[turn.turnId := turn];
    }

    /** `get(turn_id)`: the entry for the id, or `None` for an id never put. */
    method Get(turnId: string) returns (r: Option<Turn>)
      requires Valid()
      ensures r.None? <==> turnId !in turns
      ensures r.Some? ==> r.value == turns[turnId] && r.value.turnId == turnId
    {
      r := if turnId in turns then Some(turns[turnId]) else None;
    }

    /** `all()`: the whole map, every value filed under its own id. */
    method All() returns (m: map<string, Turn>)
      requires Valid()
      ensures m == turns
      ensures forall id :: id in m ==> m[id].turnId == id
    {
      m := turns;
    }
  }

  /** A client of the store: a `get` right after a `put` of a turn returns
      that turn, and an id that was never put is still absent. */
  method PutThenGet(store: TurnStore, turn: Turn, other: string) returns (r: Option<Turn>, s: Option<Turn>)
    requires store.Valid()
    requires other != turn.turnId && other !in store.turns
    modifies store
    ensures r == Some(turn)
    ensures s == None
  {
    store.Put(turn);
    r := store.Get(turn.turnId);
    s := store.Get(other);
  }
}
