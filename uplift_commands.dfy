/** The command payloads of the packaged controller (`uplift/__init__.py`) and the
    packet that renames the desk. */
module UpliftCommands {
  import opened Wrappers
  import opened Ble
  import Utf8

  /** The six commands that have a payload: `_cmd_wake`, `_cmd_vendor_preset_sit`,
      `_cmd_vendor_preset_stand`, `_cmd_vendor_button_raise`, `_cmd_vendor_button_lower`
      and `_cmd_vendor_status`. */
  datatype Command = Wake | PresetSit | PresetStand | ButtonRaise | ButtonLower | Status

  /** The byte that tells the commands apart. */
  function Opcode(c: Command): Byte {
    match c
    case Wake => 0x00
    case PresetSit => 0x05
    case PresetStand => 0x06
    case ButtonRaise => 0x01
    case ButtonLower => 0x02
    case Status => 0x07
  }

  /** The shape every control frame has: two 0xF1 bytes, the opcode, a zero byte,
      the opcode again and the 0x7E terminator. */
  predicate IsFrame(p: Bytes) {
    |p| == 6 && p[0] == 0xF1 && p[1] == 0xF1 && p[3] == 0x00 && p[4] == p[2] && p[5] == 0x7E
  }

  /** The payload table as written. */
  function Payload(c: Command): (p: Bytes)
    ensures IsFrame(p) && p[2] == Opcode(c)
  {
    match c
    case Wake => [0xF1, 0xF1, 0x00, 0x00, 0x00, 0x7E]
    case PresetSit => [0xF1, 0xF1, 0x05, 0x00, 0x05, 0x7E]
    case PresetStand => [0xF1, 0xF1, 0x06, 0x00, 0x06, 0x7E]
    case ButtonRaise => [0xF1, 0xF1, 0x01, 0x00, 0x01, 0x7E]
    case ButtonLower => [0xF1, 0xF1, 0x02, 0x00, 0x02, 0x7E]
    case Status => [0xF1, 0xF1, 0x07, 0x00, 0x07, 0x7E]
  }

  /** The command a control frame names, as the desk reads it. */
  function CommandOf(p: Bytes): (r: Option<Command>)
    ensures r.Some? ==> IsFrame(p) && p[2] == Opcode(r.value)
  {
    if !IsFrame(p) then None
    else if p[2] == 0x00 then Some(Wake)
    else if p[2] == 0x05 then Some(PresetSit)
    else if p[2] == 0x06 then Some(PresetStand)
    else if p[2] == 0x01 then Some(ButtonRaise)
    else if p[2] == 0x02 then Some(ButtonLower)
    else if p[2] == 0x07 then Some(Status)
    else None
  }

  /** Every payload names its own command, so no two commands share an opcode or a payload. */
  lemma PayloadNamesCommand(c: Command, d: Command)
    ensures CommandOf(Payload(c)) == Some(c)
    ensures c != d ==> Opcode(c) != Opcode(d) && Payload(c) != Payload(d)
  {
  }

  /** Why `write_desk_name` raises before writing anything. */
  datatype RenameError =
    | NoDeskName   // `desk_name` is `None`
    | NameTooLong  // the name needs more than 255 bytes, so `bytes([..., len(name_bytes)])` fails

  /** The rename packet: `[0x01, 0xFC, 0x07, n]` followed by the n bytes of the UTF-8 name. */
  function RenamePacket(deskName: Option<string>): (r: Result<Bytes, RenameError>)
    ensures deskName.None? <==> r == Failure(NoDeskName)
    ensures deskName.Some? ==> (r.Success? <==> |Utf8.Encode(deskName.value)| <= 255)
    ensures r.Success? ==>
      && |r.value| >= 4
      && r.value[..3] == [0x01, 0xFC, 0x07]
      && r.value[3] == |r.value| - 4
      && r.value[4..] == Utf8.Encode(deskName.value)
  {
    match deskName
    case None => Failure(NoDeskName)
    case Some(name) =>
      var nameBytes := Utf8.Encode(name);
      if |nameBytes| > 255 then Failure(NameTooLong)
      else Success([0x01, 0xFC, 0x07, |nameBytes|] + nameBytes)
  }

  /** The name a rename packet carries, as the desk reads it. */
  function NameOf(p: Bytes): Option<string> {
    if |p| >= 4 && p[..3] == [0x01, 0xFC, 0x07] && p[3] == |p| - 4 then Utf8.Decode(p[4..]) else None
  }

  /** Whatever name is accepted, the empty one included, can be read back from its packet. */
  lemma RenameRoundTrip(name: string)
    requires RenamePacket(Some(name)).Success?
    ensures NameOf(RenamePacket(Some(name)).value) == Some(name)
  {
    Utf8.DecodeEncode(name);
  }
}
