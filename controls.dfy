/** Keyboard input of the two players (static/javaScript/controls.js). Player 1
    rows with the 'a' key and player 2 with the 'b' key, in either case; a key
    counts as held from its keydown to its keyup. */
module Input {

  /** What every keydown/keyup writes into the key table: the key's name and whether it is held. */
  type KeyTable = map<string, bool>

  predicate Held(keys: KeyTable, key: string)
  {
    key in keys && keys[key]
  }

  predicate Player1Moving(keys: KeyTable)
  {
    Held(keys, "a") || Held(keys, "A")
  }

  predicate Player2Moving(keys: KeyTable)
  {
    Held(keys, "b") || Held(keys, "B")
  }

  /** A result of getInputState: both players' flags and a copy of the key table. */
  datatype InputState = InputState(player1: bool, player2: bool, keys: KeyTable)

  class Controls {
    var keys: KeyTable
    /** Touch zones the controller placed on the page; nothing in the source adds any. */
    var touchZones: seq<nat>

    constructor()
      ensures keys == map[] && touchZones == []
      ensures !IsPlayer1Moving() && !IsPlayer2Moving()
    {
      keys := map[];
      touchZones := [];
    }

    predicate IsPlayer1Moving()
      reads this
    {
      Player1Moving(keys)
    }

    predicate IsPlayer2Moving()
      reads this
    {
      Player2Moving(keys)
    }

    /** The document's keydown listener. */
    method KeyDown(key: string)
      modifies this
      ensures keys == old(keys)[key := true]
      ensures touchZones == old(touchZones)
    {
      keys := keys[key := true];
    }

    /** The document's keyup listener. */
    method KeyUp(key: string)
      modifies this
      ensures keys == old(keys)[key := false]
      ensures touchZones == old(touchZones)
    {
      keys := keys[key := false];
    }

    /** Removes the touch zones; the key table and the keyboard listeners stay. */
    method Cleanup()
      modifies this
      ensures touchZones == []
      ensures keys == old(keys)
    {
      touchZones := [];
    }

    method GetInputState() returns (s: InputState)
      ensures s.player1 <==> Held(keys, "a") || Held(keys, "A")
      ensures s.player2 <==> Held(keys, "b") || Held(keys, "B")
      ensures s.keys == keys
    {
      s := InputState(IsPlayer1Moving(), IsPlayer2Moving(), keys);
    }

    /** Presses or releases the lower-case key of player 1 or 2; any other player number does nothing. */
    method SimulateInput(player: int, active: bool)
      modifies this
      ensures player == 1 ==> keys == old(keys)["a" := active]
      ensures player == 2 ==> keys == old(keys)["b" := active]
      ensures player != 1 && player != 2 ==> keys == old(keys)
      ensures touchZones == old(touchZones)
    {
      if player == 1 {
        keys := keys["a" := active];
      } else if player == 2 {
        keys := keys["b" := active];
      }
    }
  }

  /** A key that belongs to neither player leaves both players' state as it was. */
  lemma ForeignKeyIgnored(keys: KeyTable, key: string, held: bool)
    requires key !in {"a", "A", "b", "B"}
    ensures Player1Moving(keys[key := held]) == Player1Moving(keys)
    ensures Player2Moving(keys[key := held]) == Player2Moving(keys)
  {
  }

  /** The players' keys are separate: player 1's key never changes player 2's state, and back. */
  lemma PlayersIndependent(keys: KeyTable, held: bool)
    ensures Player2Moving(keys["a" := held]) == Player2Moving(keys)
    ensures Player2Moving(keys["A" := held]) == Player2Moving(keys)
    ensures Player1Moving(keys["b" := held]) == Player1Moving(keys)
    ensures Player1Moving(keys["B" := held]) == Player1Moving(keys)
  {
  }

  /** Pressing either case of a player's key makes that player move; a player keeps moving
      until both cases are released. */
  lemma PressAndRelease(keys: KeyTable)
    ensures Player1Moving(keys["a" := true]) && Player1Moving(keys["A" := true])
    ensures Player2Moving(keys["b" := true]) && Player2Moving(keys["B" := true])
    ensures !Player1Moving(keys["a" := false]["A" := false])
    ensures Player1Moving(keys["a" := false]) == Held(keys, "A")
    ensures !Player2Moving(keys["b" := false]["B" := false])
    ensures Player2Moving(keys["b" := false]) == Held(keys, "B")
  {
  }
}
