/** The server's Socket.IO handlers (utils/socket_events.py): the relay between the
    phone's login page and the laptop's pages. Each handler takes the event's payload;
    what it broadcasts to every client is appended to the broadcast log, and what it
    records goes to the CSV data file. The connect and disconnect handlers only log
    and are left out. */
module Relay {
  import opened Wire
  import opened Helpers

  const DEBUG_PONG: Payload := map["message" := Str("Server received ping")]

  class Server {
    const data: DataFile
    /** Every event the server sent to all clients, in order. */
    var broadcasts: seq<Event>

    constructor(data: DataFile)
      ensures this.data == data && broadcasts == []
    {
      this.data := data;
      broadcasts := [];
    }

    /** game_start: the payload gains the server's timestamp, is recorded, and the stamped
        payload goes out to every client. */
    method GameStart(payload: Payload, now: string)
      requires data.Valid()
      modifies this, data
      ensures data.Valid()
      ensures var stamped := payload["timestamp" := Str(now)];
        broadcasts == old(broadcasts) + [Event("game_start", stamped)] &&
        data.rows == old(data.rows) + (if old(data.present) then [] else [PLAYER_HEADER]) + [PlayerRow(stamped)]
    {
      var stamped := payload["timestamp" := Str(now)];
      data.SavePlayerData(stamped);
      broadcasts := broadcasts + [Event("game_start", stamped)];
    }

    /** game_restart: the payload goes out unchanged; nothing is recorded. */
    method GameRestart(payload: Payload)
      modifies this
      ensures broadcasts == old(broadcasts) + [Event("game_restart", payload)]
    {
      broadcasts := broadcasts + [Event("game_restart", payload)];
    }

    /** save_player_data: the payload is recorded; nothing is sent. */
    method SavePlayerData(payload: Payload)
      requires data.Valid()
      modifies data
      ensures data.Valid()
      ensures data.rows == old(data.rows) + (if old(data.present) then [] else [PLAYER_HEADER]) + [PlayerRow(payload)]
    {
      data.SavePlayerData(payload);
    }

    /** debug_ping: a fixed pong goes out to every client, whatever the ping said. */
    method DebugPing(payload: Payload)
      modifies this
      ensures broadcasts == old(broadcasts) + [Event("debug_pong", DEBUG_PONG)]
    {
      broadcasts := broadcasts + [Event("debug_pong", DEBUG_PONG)];
    }
  }

  /** The server's timestamp is not written to the CSV row: a game start records the phone's
      four player fields as they came, so two starts with the same payload record two
      identical rows. */
  lemma StampedRowIsPlayers(payload: Payload, now1: string, now2: string)
    ensures PlayerRow(payload["timestamp" := Str(now1)]) == PlayerRow(payload)
    ensures PlayerRow(payload["timestamp" := Str(now1)]) == PlayerRow(payload["timestamp" := Str(now2)])
  {
    PlayerRowOnlyPlayers(payload, "timestamp", Str(now1));
    PlayerRowOnlyPlayers(payload, "timestamp", Str(now2));
  }
}
