# Uplift desk controller: protocol and motion inference

This project models the core of a Python controller for Uplift standing desks that
talk over a vendor Bluetooth LE protocol. It covers two versions of the controller's
`Desk` class. One is the packaged `uplift/__init__.py`. The other is the earlier
`desk.py`. The model covers:

- the fixed 6-byte control payloads (wake, preset sit, preset stand, raise, lower,
  status) and the rename packet `[0x01, 0xFC, 0x07, n] ++ utf8(name)`;
- the height-notification handler. It keeps a sliding window of recent heights, a
  moving flag and the time of the last action. It marks the desk moving when the
  height changes. It marks it idle again once five heights agree and more than a second
  has passed since the last action;
- the order of writes each command makes: wake first, then the command. Status is sent
  without a wake. With no client the call raises before any write;
- the packaged controller's callback lists: register appends, deregister removes the
  first match or raises, and dispatch runs every callback once, in order, after the
  state update.

Modules:

- `Wrappers`: option and outcome types.
- `Ble`: bytes, characteristics, clients and the `Write` record.
- `Utf8`: Python's `str.encode("utf-8")` and a decoder for it.
- `Motion`: the debounce state and the stop rule that both versions share.
- `UpliftCommands`: the payload table and the rename packet.
- `UpliftDebounce` and `LegacyDebounce`: each version's handler as a pure step function
  on the debounce state, with lemmas about it.
- `UpliftDesk.Desk` and `LegacyDesk.Desk`: the two classes. Their methods update fields
  in place, and each method's contract ties the new state to the step function.

Writes to the desk are appended to a `writes` field. Callback runs are appended to
`invocations`. The clock (`time.time()`) is a `now: real` parameter in seconds. The
converted height (`height_conv_to_in`) is a `reading: real` parameter.

The two versions differ in one place. In `uplift/__init__.py` every height change
calls `_set_moving(True)`, which also resets the last action time, so each change during
a move restarts the one-second dwell. In `desk.py` the flag is set only when the desk is
idle, so the dwell counts from the start of the move. `desk.py` also marks the desk
moving on the very first height, when the window is empty.
`LegacyDebounce.DwellRulesDiffer` gives a sample stream on which the two versions
disagree.

Four behaviours of the code are worth noting:

- Deregistering a callback that was never registered raises, because `list.remove`
  raises, and the callback lists are left as they were.
- An empty desk name is accepted. Only `None` is rejected.
- `move_to_*` and `press_*` do not record the action time. Only `read_height`,
  `write_desk_name` and `_set_moving` do.
- The stop rule needs strictly more than one second since the last action
  (`_last_action_time + 1 < time.time()`).

## Model

| member | source | states |
|---|---|---|
| UpliftCommands.Payload | uplift/__init__.py:32-44 | every control payload is 6 bytes `F1 F1 op 00 op 7E`, and its byte 2 is the command's own opcode |
| UpliftCommands.PayloadNamesCommand | uplift/__init__.py:32-44 | each payload decodes back to its own command, so opcodes and payloads of different commands differ |
| UpliftCommands.RenamePacket | uplift/__init__.py:152-157 | fails on a `None` name and only then; otherwise succeeds iff the UTF-8 name fits in 255 bytes, and is then the header `01 FC 07 n` with n = byte count, followed by the name bytes |
| UpliftCommands.RenameRoundTrip | uplift/__init__.py:155-157 | the name can be read back from every packet `write_desk_name` accepts, the empty name included |
| Utf8.Encode | uplift/__init__.py:155 | a name of k characters encodes to between k and 4k bytes |
| Utf8.DecodeEncode | uplift/__init__.py:155 | decoding the UTF-8 bytes of a string gives back the string |
| Ble.ResolveClient | desk.py:43 | `bleak_client or self.bleak_client`: the call's client if given, else the bound one, absent only if both are |
| UpliftDesk.Desk.GetClient | uplift/__init__.py:79-84 | fails with NoClient exactly when neither the call nor the desk has a client; otherwise returns the call's client in preference to the bound one |
| UpliftDebounce.Step | uplift/__init__.py:201-222 | the step keeps "moving implies an action time is set" and turns a window of at most four heights into the four most recent heights including the new one |
| UpliftDebounce.ChangeStartsMotion | uplift/__init__.py:204-207 | a height different from the last stored one marks the desk moving and sets the action time to now, even when it was already moving |
| UpliftDebounce.RepeatStartsNothing | uplift/__init__.py:204-222 | on an empty window or a repeated height the flag can only be cleared and the action time changes only with it; an idle desk stays idle with its action time unchanged |
| UpliftDebounce.StopRule | uplift/__init__.py:209-220 | a moving desk becomes idle iff the window held four heights all equal to the new one and last action + 1 < now; stopping records now as the action time |
| UpliftDebounce.RunWindow | uplift/__init__.py:209-222 | after any stream of notifications the window holds at most four heights: the most recent ones, in arrival order |
| UpliftDebounce.SteadyStreamStaysIdle | uplift/__init__.py:204-222 | an idle desk whose window holds only h is never marked moving by a stream of notifications all reporting h, and keeps its action time |
| UpliftDebounce.SettlingExample | uplift/__init__.py:201-222 | heights 30, 30, 32.5, 32.5, 32.5, 32.5, 32.5 two seconds apart: moving from the third sample, idle at the seventh |
| UpliftDesk.Desk.constructor | uplift/__init__.py:59-69 | a new desk has height 0, is idle, has an empty window, no action time, no callbacks and no writes |
| UpliftDesk.Desk.SetMoving | uplift/__init__.py:86-88 | sets the flag and records now as the action time |
| UpliftDesk.Desk.Awaken | uplift/__init__.py:227-233 | appends exactly one write: the wake payload to the control characteristic |
| UpliftDesk.Desk.CommandWrites | uplift/__init__.py:90-116 | a movement command is two control writes on one client: wake, then the command |
| UpliftDesk.Desk.MoveToStanding | uplift/__init__.py:90-95 | with no client: NoClient and no write; otherwise exactly wake then preset stand, and nothing else changes |
| UpliftDesk.Desk.MoveToSitting | uplift/__init__.py:97-102 | with no client: NoClient and no write; otherwise exactly wake then preset sit, and nothing else changes |
| UpliftDesk.Desk.PressRaise | uplift/__init__.py:104-109 | with no client: NoClient and no write; otherwise exactly wake then raise, and nothing else changes |
| UpliftDesk.Desk.PressLower | uplift/__init__.py:111-116 | with no client: NoClient and no write; otherwise exactly wake then lower, and nothing else changes |
| UpliftDesk.Desk.WriteDeskName | uplift/__init__.py:147-161 | checks the client, then the name; on either failure nothing changes; otherwise records now as the action time and writes the rename packet to the desk-name characteristic |
| UpliftDesk.Desk.ReadHeight | uplift/__init__.py:163-173 | with a client: one status write and no wake, action time now, height and result the reading; window, flag and callbacks untouched; with none: NoClient and nothing changes |
| UpliftDesk.Desk.RegisterCallbackDeskName | uplift/__init__.py:175-176 | appends the callback to the end of the desk-name list; the height list is untouched |
| UpliftDesk.Desk.DeregisterCallbackDeskName | uplift/__init__.py:178-179 | removes the first equal entry of the desk-name list, or fails with NotRegistered and changes nothing |
| UpliftDesk.Desk.RegisterCallbackHeight | uplift/__init__.py:181-182 | appends the callback to the end of the height list; the desk-name list is untouched |
| UpliftDesk.Desk.DeregisterCallbackHeight | uplift/__init__.py:184-185 | removes the first equal entry of the height list, or fails with NotRegistered and changes nothing |
| UpliftDesk.FirstIndex | uplift/__init__.py:179 | the position `list.remove` removes: an occurrence of the callback with none before it |
| UpliftDesk.RemoveFirst | uplift/__init__.py:185 | removal shortens the list by one, takes away exactly one copy of the callback, and keeps the entries before and after the removed one in order |
| UpliftDesk.Desk.Dispatch | uplift/__init__.py:224-225 | appends one invocation per callback, in list order, each seeing the current height and flag |
| UpliftDesk.InvocationsInOrder | uplift/__init__.py:198-199 | the i-th recorded invocation is of the i-th callback of the list |
| UpliftDesk.Desk.NotifyDeskName | uplift/__init__.py:190-199 | runs the desk-name callbacks in order; the acknowledgement's bytes are ignored |
| UpliftDesk.Desk.NotifyHeight | uplift/__init__.py:201-225 | the new height is the reading, the debounce state is `UpliftDebounce.Step` of the old one, the invariant is kept, and then the height callbacks run in order on the updated state |
| LegacyDesk.Payload | desk.py:12-17 | every payload of the earlier table has the 6-byte frame shape with byte 2 the command's opcode |
| LegacyDesk.SamePayloads | desk.py:12-17 | the earlier table sends the same bytes as the packaged one for every command, so its commands decode back to themselves too |
| LegacyDebounce.Step | desk.py:111-129 | the step keeps "moving implies an action time is set" and turns a window of at most four heights into the four most recent heights including the new one |
| LegacyDebounce.FirstHeightStartsMotion | desk.py:115-117 | the first height, on an empty window, marks an idle desk moving with action time now |
| LegacyDebounce.ChangeStartsMotion | desk.py:115-117 | an idle desk is marked moving, with action time now, by a height different from the last stored one |
| LegacyDebounce.RepeatKeepsIdle | desk.py:115-117 | the other half of the start rule: an idle desk hearing the height it last stored stays idle and keeps its action time |
| LegacyDebounce.DwellFromMotionStart | desk.py:115-117 | while the desk stays moving its action time never changes, so later height changes do not restart the dwell |
| LegacyDebounce.StopRule | desk.py:120-127 | a moving desk becomes idle iff the window held four heights all equal to the new one and last action + 1 < now; stopping records now |
| LegacyDebounce.SameWindow | desk.py:119-129 | the earlier handler moves the window on exactly as the packaged one does |
| LegacyDebounce.DwellRulesDiffer | desk.py:111-129 | on heights 1, 2, 2, 2, 2, 2 at 0, 2, 2.1, 2.2, 2.3, 2.4 s the earlier handler ends idle while the packaged one is still moving |
| LegacyDebounce.RunWindow | desk.py:119-129 | after any stream of notifications the window holds at most four heights: the most recent ones, in arrival order |
| LegacyDesk.Desk.constructor | desk.py:22-28 | a new desk has height 0, is idle, has an empty window, no action time and no writes |
| LegacyDesk.Desk.SetMoving | desk.py:38-40 | sets the flag and records now as the action time |
| LegacyDesk.Desk.Awaken | desk.py:131-137 | appends exactly one write: the wake payload to the control characteristic |
| LegacyDesk.Desk.CommandWrites | desk.py:42-76 | a movement command is two control writes on one client: wake, then the command |
| LegacyDesk.Desk.MoveToStanding | desk.py:42-49 | with no client: NoClient and no write; otherwise exactly wake then preset stand |
| LegacyDesk.Desk.MoveToSitting | desk.py:51-58 | with no client: NoClient and no write; otherwise exactly wake then preset sit |
| LegacyDesk.Desk.PressRaise | desk.py:60-67 | with no client: NoClient and no write; otherwise exactly wake then raise |
| LegacyDesk.Desk.PressLower | desk.py:69-76 | with no client: NoClient and no write; otherwise exactly wake then lower |
| LegacyDesk.Desk.ReadHeight | desk.py:97-106 | with a client: one status write and no wake, action time now, height and result the reading; window and flag untouched; with none: NoClient and nothing changes |
| LegacyDesk.Desk.NotifyHeight | desk.py:111-129 | the new height is the reading and the debounce state is `LegacyDebounce.Step` of the old one; the invariant is kept |

## Left out

- BLE transport: `discover`, `start_notify`, `stop_notify` (and the `BleakDBusError` it swallows) and `read_device_name` with its lossy decode. These are calls into the `bleak` library. Writes are only recorded, and a read's converted result is passed in as `reading`.
- Transport failures: a `write_gatt_char` or `read_gatt_char` that raises partway through a command (after the wake, say) is not modelled. Every write in the model succeeds.
- async scheduling: each handler and command runs as one atomic sequential method.
- `height_conv_to_in` lives in a `utils` module that is not part of this model. Its result is the `reading` input. Heights are exact reals compared only for equality, so float NaN is not modelled.
- `time.time()` is the `now` input in seconds. Times are exact reals.
- Each handler and command takes a single clock reading as `now`. `_notify_callback_height` reads `time.time()` up to three times (through `_set_moving`, and in the stop branch), with no `await` in between, so the model uses one value for all of them.
- UpliftDebounce.Step: `_last_action_time + 1 < now` is compared on exact reals. Float rounding of that sum is not modelled.
- UpliftDesk.Desk.Dispatch: callbacks are opaque identities that only observe the desk. A callback that raises, or that registers or deregisters callbacks while the list is being iterated, is not modelled.
- Utf8.Encode: Dafny characters are Unicode scalar values, so a Python string holding a lone surrogate cannot be represented. For such a string `str.encode` raises `UnicodeEncodeError`, and the model has no input that does this.
- `print` calls (`write_desk_name` and the `desk.py` height handler), `__str__`, and the `height`/`moving` properties. The last two just return fields that the model exposes directly.
- The 16-bit UUID constants and their normalisation. Characteristics are an enumeration.
- `_awaken` resolves a client but writes through its `bleak_client` argument. Every caller passes the resolved client, so this cannot be observed, and the model's `Awaken` takes the resolved client.
- `examples/demo.py`: an interactive command loop with no logic of its own.
