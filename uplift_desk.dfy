/** The packaged controller's `Desk` (`uplift/__init__.py`): the state it keeps for one
    desk, the writes it sends and the callbacks it runs. Writes are recorded in `writes`
    and callback runs in `invocations`, in the order they happen. */
module UpliftDesk {
  import opened Wrappers
  import opened Ble
  import opened Motion
  import opened UpliftCommands
  import UpliftDebounce

  /** Why a call raises. */
  datatype DeskError =
    | NoClient                      // neither the call nor the desk has a client
    | BadName(reason: RenameError)  // `write_desk_name` rejected the name
    | NotRegistered                 // `list.remove` found no such callback

  /** A registered callback, known only by its identity (`==` on Python callables). */
  type Callback = nat

  /** The two notification streams that run callbacks. */
  datatype Event = DeskNameAck | HeightChanged

  /** One awaited `callback(self)`, with the height and moving flag the callback sees. */
  datatype Invocation = Invocation(event: Event, callback: Callback, height: Height, moving: bool)

  /** The runs of `callbacks`, one each, in list order. */
  function Invocations(event: Event, callbacks: seq<Callback>, h: Height, moving: bool): (r: seq<Invocation>)
    ensures |r| == |callbacks|
  {
    if callbacks == [] then []
    else [Invocation(event, callbacks[0], h, moving)] + Invocations(event, callbacks[1..], h, moving)
  }

  /** Each callback runs exactly once, in list order. */
  lemma {:induction false} InvocationsInOrder(event: Event, callbacks: seq<Callback>, h: Height, moving: bool, i: nat)
    requires i < |callbacks|
    ensures Invocations(event, callbacks, h, moving)[i] == Invocation(event, callbacks[i], h, moving)
    decreases i
  {
    if i > 0 {
      InvocationsInOrder(event, callbacks[1..], h, moving, i - 1);
    }
  }

  /** Running two lists of callbacks one after the other runs their concatenation. */
  lemma {:induction false} InvocationsAppend(event: Event, a: seq<Callback>, b: seq<Callback>, h: Height, moving: bool)
    ensures Invocations(event, a + b, h, moving) == Invocations(event, a, h, moving) + Invocations(event, b, h, moving)
    decreases |a|
  {
    if a == [] {
      assert a + b == b;
    } else {
      assert (a + b)[0] == a[0] && (a + b)[1..] == a[1..] + b;
      InvocationsAppend(event, a[1..], b, h, moving);
    }
  }

  /** The position of the first `x` in `s`. */
  function FirstIndex(s: seq<Callback>, x: Callback): (i: nat)
    requires x in s
    ensures i < |s| && s[i] == x && x !in s[..i]
  {
    if s[0] == x then 0
    else
      var j := FirstIndex(s[1..], x);
      assert s[..j + 1] == [s[0]] + s[1..][..j];
      j + 1
  }

  /** `list.remove(x)` on a list holding `x`: the first `x` is dropped and nothing else. */
  function RemoveFirst(s: seq<Callback>, x: Callback): (r: seq<Callback>)
    requires x in s
    ensures |r| == |s| - 1
    ensures multiset(r) == multiset(s) - multiset{x}
    ensures r[..FirstIndex(s, x)] == s[..FirstIndex(s, x)] && r[FirstIndex(s, x)..] == s[FirstIndex(s, x) + 1..]
  {
    var i := FirstIndex(s, x);
    assert s == s[..i] + [x] + s[i + 1..];
    s[..i] + s[i + 1..]
  }

  class Desk {
    const address: string
    const name: string
    /** `bleak_client`: the client bound at construction, if any. */
    const boundClient: Option<Client>
    /** `_height`. */
    var height: Height
    /** `_moving`. */
    var moving: bool
    /** `_last_heights`. */
    var lastHeights: seq<Height>
    /** `_last_action_time`, absent until first assigned. */
    var lastActionTime: Option<Time>
    /** `_notification_callbacks_desk_name`. */
    var nameCallbacks: seq<Callback>
    /** `_notification_callbacks_height`. */
    var heightCallbacks: seq<Callback>
    /** Every GATT write made so far, oldest first. */
    var writes: seq<Write>
    /** Every callback run so far, oldest first. */
    var invocations: seq<Invocation>

    /** The debounce state the height handler works on. */
    function MotionState(): State
      reads this
    {
      State(lastHeights, moving, lastActionTime)
    }

    ghost predicate Valid()
      reads this
    {
      Invariant(MotionState())
    }

    constructor (address: string, name: string, client: Option<Client>)
      ensures Valid()
      ensures this.address == address && this.name == name && boundClient == client
      ensures height == 0.0 && MotionState() == Initial
      ensures nameCallbacks == [] && heightCallbacks == []
      ensures writes == [] && invocations == []
    {
      this.address := address;
      this.name := name;
      boundClient := client;
      height := 0.0;
      moving := false;
      lastHeights := [];
      lastActionTime := None;
      nameCallbacks := [];
      heightCallbacks := [];
      writes := [];
      invocations := [];
    }

    /** `_get_client`: the call's client, else the bound one, else raise. */
    function GetClient(clientArg: Option<Client>): (r: Result<Client, DeskError>)
      reads this
      ensures r.Failure? <==> clientArg.None? && boundClient.None?
      ensures r.Failure? ==> r.error == NoClient
      ensures clientArg.Some? ==> r == Success(clientArg.value)
      ensures clientArg.None? && boundClient.Some? ==> r == Success(boundClient.value)
    {
      match ResolveClient(clientArg, boundClient)
      case None => Failure(NoClient)
      case Some(c) => Success(c)
    }

    /** `_set_moving`: setting the flag also records the action time. */
    method SetMoving(value: bool, now: Time)
      modifies this`moving, this`lastActionTime
      ensures moving == value && lastActionTime == Some(now)
    {
      moving := value;
      lastActionTime := Some(now);
    }

    /** `_awaken`, called with the resolved client: one wake write. */
    method Awaken(client: Client)
      modifies this`writes
      ensures writes == old(writes) + [Write(client, DeskControl, Payload(Wake))]
    {
      writes := writes + [Write(client, DeskControl, Payload(Wake))];
    }

    /** The two writes of a movement command: wake, then the command, both on `client`. */
    static function CommandWrites(client: Client, c: Command): (w: seq<Write>)
      ensures |w| == 2 && w[0].payload == Payload(Wake) && w[1].payload == Payload(c)
      ensures forall i :: 0 <= i < 2 ==> w[i].client == client && w[i].characteristic == DeskControl
    {
      [Write(client, DeskControl, Payload(Wake)), Write(client, DeskControl, Payload(c))]
    }

    method MoveToStanding(clientArg: Option<Client>) returns (r: Outcome<DeskError>)
      modifies this`writes
      ensures GetClient(clientArg).Failure? ==> r == Fail(NoClient) && writes == old(writes)
      ensures GetClient(clientArg).Success? ==>
        r == Pass && writes == old(writes) + CommandWrites(GetClient(clientArg).value, PresetStand)
    {
      var client := GetClient(clientArg);
      if client.Failure? {
        return Fail(client.error);
      }
      Awaken(client.value);
      writes := writes + [Write(client.value, DeskControl, Payload(PresetStand))];
      return Pass;
    }

    method MoveToSitting(clientArg: Option<Client>) returns (r: Outcome<DeskError>)
      modifies this`writes
      ensures GetClient(clientArg).Failure? ==> r == Fail(NoClient) && writes == old(writes)
      ensures GetClient(clientArg).Success? ==>
        r == Pass && writes == old(writes) + CommandWrites(GetClient(clientArg).value, PresetSit)
    {
      var client := GetClient(clientArg);
      if client.Failure? {
        return Fail(client.error);
      }
      Awaken(client.value);
      writes := writes + [Write(client.value, DeskControl, Payload(PresetSit))];
      return Pass;
    }

    method PressRaise(clientArg: Option<Client>) returns (r: Outcome<DeskError>)
      modifies this`writes
      ensures GetClient(clientArg).Failure? ==> r == Fail(NoClient) && writes == old(writes)
      ensures GetClient(clientArg).Success? ==>
        r == Pass && writes == old(writes) + CommandWrites(GetClient(clientArg).value, ButtonRaise)
    {
      var client := GetClient(clientArg);
      if client.Failure? {
        return Fail(client.error);
      }
      Awaken(client.value);
      writes := writes + [Write(client.value, DeskControl, Payload(ButtonRaise))];
      return Pass;
    }

    method PressLower(clientArg: Option<Client>) returns (r: Outcome<DeskError>)
      modifies this`writes
      ensures GetClient(clientArg).Failure? ==> r == Fail(NoClient) && writes == old(writes)
      ensures GetClient(clientArg).Success? ==>
        r == Pass && writes == old(writes) + CommandWrites(GetClient(clientArg).value, ButtonLower)
    {
      var client := GetClient(clientArg);
      if client.Failure? {
        return Fail(client.error);
      }
      Awaken(client.value);
      writes := writes + [Write(client.value, DeskControl, Payload(ButtonLower))];
      return Pass;
    }

    /** `write_desk_name`: checks the client, then the name, and only then records the
        action time and writes the rename packet to the desk-name characteristic. */
    method WriteDeskName(clientArg: Option<Client>, deskName: Option<string>, now: Time)
      returns (r: Outcome<DeskError>)
      requires Valid()
      modifies this`writes, this`lastActionTime
      ensures Valid()
      ensures GetClient(clientArg).Failure? ==>
        r == Fail(NoClient) && writes == old(writes) && lastActionTime == old(lastActionTime)
      ensures GetClient(clientArg).Success? && RenamePacket(deskName).Failure? ==>
        r == Fail(BadName(RenamePacket(deskName).error))
        && writes == old(writes) && lastActionTime == old(lastActionTime)
      ensures GetClient(clientArg).Success? && RenamePacket(deskName).Success? ==>
        r == Pass && lastActionTime == Some(now)
        && writes == old(writes) + [Write(GetClient(clientArg).value, DeskName, RenamePacket(deskName).value)]
    {
      var client := GetClient(clientArg);
      if client.Failure? {
        return Fail(client.error);
      }
      var packet := RenamePacket(deskName);
      if packet.Failure? {
        return Fail(BadName(packet.error));
      }
      lastActionTime := Some(now);
      writes := writes + [Write(client.value, DeskName, packet.value)];
      return Pass;
    }

    /** `read_height`: records the action time, writes the status request (without a wake)
        and takes `reading`, the converted value read back from the height characteristic,
        as the new height. The window, the moving flag and the callbacks are left alone. */
    method ReadHeight(clientArg: Option<Client>, reading: Height, now: Time) returns (r: Result<Height, DeskError>)
      requires Valid()
      modifies this`writes, this`lastActionTime, this`height
      ensures Valid()
      ensures GetClient(clientArg).Failure? ==>
        r == Failure(NoClient) && writes == old(writes)
        && lastActionTime == old(lastActionTime) && height == old(height)
      ensures GetClient(clientArg).Success? ==>
        r == Success(reading) && height == reading && lastActionTime == Some(now)
        && writes == old(writes) + [Write(GetClient(clientArg).value, DeskControl, Payload(Status))]
    {
      var client := GetClient(clientArg);
      if client.Failure? {
        return Failure(client.error);
      }
      lastActionTime := Some(now);
      writes := writes + [Write(client.value, DeskControl, Payload(Status))];
      height := reading;
      return Success(height);
    }

    method RegisterCallbackDeskName(callback: Callback)
      modifies this`nameCallbacks
      ensures nameCallbacks == old(nameCallbacks) + [callback]
    {
      nameCallbacks := nameCallbacks + [callback];
    }

    method DeregisterCallbackDeskName(callback: Callback) returns (r: Outcome<DeskError>)
      modifies this`nameCallbacks
      ensures callback !in old(nameCallbacks) ==> r == Fail(NotRegistered) && nameCallbacks == old(nameCallbacks)
      ensures callback in old(nameCallbacks) ==>
        r == Pass && nameCallbacks == RemoveFirst(old(nameCallbacks), callback)
    {
      if callback !in nameCallbacks {
        return Fail(NotRegistered);
      }
      nameCallbacks := RemoveFirst(nameCallbacks, callback);
      return Pass;
    }

    method RegisterCallbackHeight(callback: Callback)
      modifies this`heightCallbacks
      ensures heightCallbacks == old(heightCallbacks) + [callback]
    {
      heightCallbacks := heightCallbacks + [callback];
    }

    method DeregisterCallbackHeight(callback: Callback) returns (r: Outcome<DeskError>)
      modifies this`heightCallbacks
      ensures callback !in old(heightCallbacks) ==> r == Fail(NotRegistered) && heightCallbacks == old(heightCallbacks)
      ensures callback in old(heightCallbacks) ==>
        r == Pass && heightCallbacks == RemoveFirst(old(heightCallbacks), callback)
    {
      if callback !in heightCallbacks {
        return Fail(NotRegistered);
      }
      heightCallbacks := RemoveFirst(heightCallbacks, callback);
      return Pass;
    }

    /** Runs each of `callbacks` once, in order, each seeing the current height and flag. */
    method Dispatch(event: Event, callbacks: seq<Callback>)
      modifies this`invocations
      ensures invocations == old(invocations) + Invocations(event, callbacks, height, moving)
    {
      var h, mv := height, moving;
      ghost var before := invocations;
      for i := 0 to |callbacks|
        invariant invocations == before + Invocations(event, callbacks[..i], h, mv)
      {
        InvocationsAppend(event, callbacks[..i], [callbacks[i]], h, mv);
        assert callbacks[..i + 1] == callbacks[..i] + [callbacks[i]];
        invocations := invocations + [Invocation(event, callbacks[i], h, mv)];
      }
      assert callbacks[..|callbacks|] == callbacks;
    }

    /** `_notify_callback_desk_name`: the acknowledgement's bytes are ignored; the desk-name
        callbacks run in order. */
    method NotifyDeskName()
      modifies this`invocations
      ensures invocations == old(invocations) + Invocations(DeskNameAck, nameCallbacks, height, moving)
    {
      Dispatch(DeskNameAck, nameCallbacks);
    }

    /** `_notify_callback_height`, given `reading`, the converted height, and the clock:
        the debounce step of `UpliftDebounce.Step`, then the height callbacks in order,
        each seeing the updated height and flag. */
    method NotifyHeight(reading: Height, now: Time)
      requires Valid()
      modifies this`height, this`moving, this`lastHeights, this`lastActionTime, this`invocations
      ensures Valid()
      ensures height == reading
      ensures MotionState() == UpliftDebounce.Step(old(MotionState()), reading, now)
      ensures invocations == old(invocations) + Invocations(HeightChanged, heightCallbacks, reading, moving)
    {
      height := reading;
      if |lastHeights| > 0 && lastHeights[|lastHeights| - 1] != height {
        SetMoving(true, now);
      }
      lastHeights := lastHeights + [height];
      if |lastHeights| > Retained {
        if moving && lastActionTime.value + 1.0 < now
          && lastHeights[0] == height && lastHeights[1] == height
          && lastHeights[2] == height && lastHeights[3] == height
        {
          SetMoving(false, now);
        }
        lastHeights := lastHeights[1..];
      }
      Dispatch(HeightChanged, heightCallbacks);
    }
  }
}
