/** The earlier controller's `Desk` (`desk.py`): the same commands with their own payload
    table, no callbacks and no renaming. Writes are recorded in `writes`, oldest first. */
module LegacyDesk {
  import opened Wrappers
  import opened Ble
  import opened Motion
  import UpliftCommands
  import LegacyDebounce

  /** The payload table of `desk.py` (`wake_uuid`, `sit_preset_uuid`, ...), as written. */
  function Payload(c: UpliftCommands.Command): (p: Bytes)
    ensures UpliftCommands.IsFrame(p) && p[2] == UpliftCommands.Opcode(c)
  {
    match c
    case Wake => [0xF1, 0xF1, 0x00, 0x00, 0x00, 0x7E]
    case PresetSit => [0xF1, 0xF1, 0x05, 0x00, 0x05, 0x7E]
    case PresetStand => [0xF1, 0xF1, 0x06, 0x00, 0x06, 0x7E]
    case ButtonRaise => [0xF1, 0xF1, 0x01, 0x00, 0x01, 0x7E]
    case ButtonLower => [0xF1, 0xF1, 0x02, 0x00, 0x02, 0x7E]
    case Status => [0xF1, 0xF1, 0x07, 0x00, 0x07, 0x7E]
  }

  /** Both controllers send the same bytes for every command, so the desk tells the
      commands of this table apart as it does the packaged ones. */
  lemma SamePayloads(c: UpliftCommands.Command)
    ensures Payload(c) == UpliftCommands.Payload(c)
    ensures UpliftCommands.CommandOf(Payload(c)) == Some(c)
  {
  }

  /** The one way a call fails: no client. */
  datatype DeskError = NoClient

  class Desk {
    const address: string
    const name: string
    /** `bleak_client`: the client bound at construction, if any. */
    const boundClient: Option<Client>
    /** `_height`. */
    var height: Height
    /** `_moving`. */
    var moving: bool
    /** `_last_heights`. */
    var lastHeights: seq<Height>
    /** `_last_action_time`, absent until first assigned. */
    var lastActionTime: Option<Time>
    /** Every GATT write made so far, oldest first. */
    var writes: seq<Write>

    /** The debounce state the height handler works on. */
    function MotionState(): State
      reads this
    {
      State(lastHeights, moving, lastActionTime)
    }

    ghost predicate Valid()
      reads this
    {
      Invariant(MotionState())
    }

    constructor (address: string, name: string, client: Option<Client>)
      ensures Valid()
      ensures this.address == address && this.name == name && boundClient == client
      ensures height == 0.0 && MotionState() == Initial && writes == []
    {
      this.address := address;
      this.name := name;
      boundClient := client;
      height := 0.0;
      moving := false;
      lastHeights := [];
      lastActionTime := None;
      writes := [];
    }

    /** `_set_moving`: setting the flag also records the action time. */
    method SetMoving(value: bool, now: Time)
      modifies this`moving, this`lastActionTime
      ensures moving == value && lastActionTime == Some(now)
    {
      moving := value;
      lastActionTime := Some(now);
    }

    /** `_awaken`, called with the resolved client: one wake write. */
    method Awaken(client: Client)
      modifies this`writes
      ensures writes == old(writes) + [Write(client, DeskControl, Payload(UpliftCommands.Wake))]
    {
      writes := writes + [Write(client, DeskControl, Payload(UpliftCommands.Wake))];
    }

    /** The two writes of a movement command: wake, then the command, both on `client`. */
    static function CommandWrites(client: Client, c: UpliftCommands.Command): (w: seq<Write>)
      ensures |w| == 2 && w[0].payload == Payload(UpliftCommands.Wake) && w[1].payload == Payload(c)
      ensures forall i :: 0 <= i < 2 ==> w[i].client == client && w[i].characteristic == DeskControl
    {
      [Write(client, DeskControl, Payload(UpliftCommands.Wake)), Write(client, DeskControl, Payload(c))]
    }

    method MoveToStanding(clientArg: Option<Client>) returns (r: Outcome<DeskError>)
      modifies this`writes
      ensures ResolveClient(clientArg, boundClient).None? ==> r == Fail(NoClient) && writes == old(writes)
      ensures ResolveClient(clientArg, boundClient).Some? ==>
        r == Pass && writes == old(writes) + CommandWrites(ResolveClient(clientArg, boundClient).value, UpliftCommands.PresetStand)
    {
      var client := ResolveClient(clientArg, boundClient);
      if client.None? {
        return Fail(NoClient);
      }
      Awaken(client.value);
      writes := writes + [Write(client.value, DeskControl, Payload(UpliftCommands.PresetStand))];
      return Pass;
    }

    method MoveToSitting(clientArg: Option<Client>) returns (r: Outcome<DeskError>)
      modifies this`writes
      ensures ResolveClient(clientArg, boundClient).None? ==> r == Fail(NoClient) && writes == old(writes)
      ensures ResolveClient(clientArg, boundClient).Some? ==>
        r == Pass && writes == old(writes) + CommandWrites(ResolveClient(clientArg, boundClient).value, UpliftCommands.PresetSit)
    {
      var client := ResolveClient(clientArg, boundClient);
      if client.None? {
        return Fail(NoClient);
      }
      Awaken(client.value);
      writes := writes + [Write(client.value, DeskControl, Payload(UpliftCommands.PresetSit))];
      return Pass;
    }

    method PressRaise(clientArg: Option<Client>) returns (r: Outcome<DeskError>)
      modifies this`writes
      ensures ResolveClient(clientArg, boundClient).None? ==> r == Fail(NoClient) && writes == old(writes)
      ensures ResolveClient(clientArg, boundClient).Some? ==>
        r == Pass && writes == old(writes) + CommandWrites(ResolveClient(clientArg, boundClient).value, UpliftCommands.ButtonRaise)
    {
      var client := ResolveClient(clientArg, boundClient);
      if client.None? {
        return Fail(NoClient);
      }
      Awaken(client.value);
      writes := writes + [Write(client.value, DeskControl, Payload(UpliftCommands.ButtonRaise))];
      return Pass;
    }

    method PressLower(clientArg: Option<Client>) returns (r: Outcome<DeskError>)
      modifies this`writes
      ensures ResolveClient(clientArg, boundClient).None? ==> r == Fail(NoClient) && writes == old(writes)
      ensures ResolveClient(clientArg, boundClient).Some? ==>
        r == Pass && writes == old(writes) + CommandWrites(ResolveClient(clientArg, boundClient).value, UpliftCommands.ButtonLower)
    {
      var client := ResolveClient(clientArg, boundClient);
      if client.None? {
        return Fail(NoClient);
      }
      Awaken(client.value);
      writes := writes + [Write(client.value, DeskControl, Payload(UpliftCommands.ButtonLower))];
      return Pass;
    }

    /** `read_height`: records the action time, writes the status request (without a wake)
        and takes `reading`, the converted value read back from the height characteristic,
        as the new height. The window and the moving flag are left alone. */
    method ReadHeight(clientArg: Option<Client>, reading: Height, now: Time) returns (r: Result<Height, DeskError>)
      requires Valid()
      modifies this`writes, this`lastActionTime, this`height
      ensures Valid()
      ensures ResolveClient(clientArg, boundClient).None? ==>
        r == Failure(NoClient) && writes == old(writes)
        && lastActionTime == old(lastActionTime) && height == old(height)
      ensures ResolveClient(clientArg, boundClient).Some? ==>
        r == Success(reading) && height == reading && lastActionTime == Some(now)
        && writes == old(writes)
           + [Write(ResolveClient(clientArg, boundClient).value, DeskControl, Payload(UpliftCommands.Status))]
    {
      var client := ResolveClient(clientArg, boundClient);
      if client.None? {
        return Failure(NoClient);
      }
      lastActionTime := Some(now);
      writes := writes + [Write(client.value, DeskControl, Payload(UpliftCommands.Status))];
      height := reading;
      return Success(height);
    }

    /** `_height_notify_callback`, given `reading`, the converted height, and the clock:
        the debounce step of `LegacyDebounce.Step`. */
    method NotifyHeight(reading: Height, now: Time)
      requires Valid()
      modifies this`height, this`moving, this`lastHeights, this`lastActionTime
      ensures Valid()
      ensures height == reading
      ensures MotionState() == LegacyDebounce.Step(old(MotionState()), reading, now)
    {
      height := reading;
      if !moving && (|lastHeights| == 0 || lastHeights[|lastHeights| - 1] != height) {
        SetMoving(true, now);
      }
      lastHeights := lastHeights + [height];
      if |lastHeights| > Retained {
        if moving && lastActionTime.value + 1.0 < now
          && lastHeights[0] == height && lastHeights[1] == height
          && lastHeights[2] == height && lastHeights[3] == height
        {
          SetMoving(false, now);
        }
        lastHeights := lastHeights[1..];
      }
    }
  }
}
