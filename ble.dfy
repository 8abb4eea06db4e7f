/** The vocabulary both desk controllers share with the BLE transport: bytes, the
    desk's GATT characteristics, connected clients and the writes sent to them. */
module Ble {
  import opened Wrappers

  /** One element of a Python `bytes` value or of a payload list. */
  type Byte = b: int | 0 <= b < 256

  type Bytes = seq<Byte>

  /** The characteristics the controllers address: the standard device name (0x2A00)
      and the vendor desk name (0xFE63), height (0xFE62) and control (0xFE61). */
  datatype Characteristic = DeviceName | DeskName | DeskHeight | DeskControl

  /** A connected `BleakClient`, known only by its identity. */
  type Client = nat

  /** One `write_gatt_char(characteristic, payload, False)` call made on `client`. */
  datatype Write = Write(client: Client, characteristic: Characteristic, payload: Bytes)

  /** `bleak_client or self.bleak_client`: a client passed to the call wins over the
      one bound to the desk; a client object is always truthy. */
  function ResolveClient(arg: Option<Client>, bound: Option<Client>): (r: Option<Client>)
    ensures r.Some? <==> arg.Some? || bound.Some?
    ensures arg.Some? ==> r == arg
    ensures arg.None? ==> r == bound
  {
    if arg.Some? then arg else bound
  }
}
