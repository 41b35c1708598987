/** Messages between the server and a seated client. Fields a table never inspects (names,
    keys, statistics, lobby listings) are left out. */
module Protocol {
  import opened Types

  datatype SeatInfo = SeatInfo(seat: nat, player: nat, stack: nat)

  datatype ServerMessage =
    | Welcome(player: nat)
    | Rejected(reason: string)
    | Goodbye(reason: string)
    | Heartbeat
    | TableList
    | JoinedTable(table: nat, seat: nat, seats: seq<SeatInfo>)
    | LeftTable(table: nat)
    | TableState(table: nat, seats: seq<SeatInfo>, button: nat)
    | TableEvent(table: nat, event: Event)
    | Prompt(table: nat, hand: nat, seat: nat, legal: LegalActions, deadline: nat)
    | ActionRejected(reason: string)
    | ReplayEvents(hand: nat, events: seq<ServerMessage>)
}
