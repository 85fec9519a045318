/**
  `PanelInterface` (pynx587e/controller.py): the device bank, the command
  queue and the callback, as a class whose methods update them in place.
  The serial port, the worker threads and the clock are not part of this
  model; the callback is its log of invocations, `delivered`.
 */
module Controller {
  import opened Wrappers
  import opened PyText
  import opened NxModel
  import opened Protocol
  import opened DeviceBank

  class PanelInterface {
    /** The `model` module the controller reads. */
    const cfg: Config
    /** `_NX_MAX_DEVICES`. */
    const maxDevices: Limits
    /** `_keymap`: "USA" or "AUNZ". */
    const keymap: string

    var deviceBank: Bank
    /** `_command_q`, oldest command first; only ever appended to. */
    var commandQ: seq<string>
    /** The events passed to the callback, in the order of the calls. */
    var delivered: seq<Event>

    ghost predicate Valid()
      reads this
    {
      cfg.Valid() && WellFormed(cfg, maxDevices, deviceBank) && (keymap == "USA" || keymap == "AUNZ")
    }

    /**
      The body of `__init__` once the keymap is accepted (lines 61-80): one
      fresh device per id and a direct query for it, zones first.
     */
    constructor (cfg: Config, maxZone: int, maxPartitions: int, keymap: string)
      requires cfg.Valid()
      requires keymap == "USA" || keymap == "AUNZ"
      ensures Valid()
      ensures this.cfg == cfg && maxDevices == Limits(maxZone, maxPartitions) && this.keymap == keymap
      ensures deviceBank == InitialBank(cfg, maxDevices)
      ensures commandQ == PrimingQueries(maxDevices)
      ensures delivered == []
    {
      this.cfg := cfg;
      maxDevices := Limits(maxZone, maxPartitions);
      this.keymap := keymap;
      deviceBank := map[];
      commandQ := [];
      delivered := [];
      new;
      // One pass of the loop per message type, zones first.
      var zones := TrackDevices(ZN);
      assert commandQ == QueriesUpTo(ZN, maxZone);
      deviceBank := deviceBank[ZN := zones];
      var partitions := TrackDevices(PA);
      deviceBank := deviceBank[PA := partitions];
      assert deviceBank == InitialBank(cfg, maxDevices);
      PrimingSplit(maxDevices);
    }

    /**
      One pass of the constructor's `for` loop (lines 74-80): the device list
      for tag t, one fresh device per id, and a direct query for each id in
      order. The caller stores the list in the bank.
     */
    method TrackDevices(t: Tag) returns (devices: seq<Device>)
      modifies this`commandQ
      ensures devices == Devices(cfg.Attributes(t), Count(maxDevices.Max(t)))
      ensures commandQ == old(commandQ) + QueriesUpTo(t, maxDevices.Max(t))
    {
      devices := [];
      var i := 0;
      while i < maxDevices.Max(t)
        invariant 0 <= i <= Count(maxDevices.Max(t))
        invariant devices == Devices(cfg.Attributes(t), i)
        invariant commandQ == old(commandQ) + QueriesUpTo(t, i)
      {
        DevicesSnoc(cfg.Attributes(t), i);
        QueriesUpToStep(maxDevices, old(commandQ), t, i);
        devices := devices + [NewDevice(cfg.Attributes(t))];
        DirectQuery(t.Name(), i + 1);
        i := i + 1;
      }
    }

    /**
      `__init__` as a whole: a keymap other than USA or AUNZ raises
      KeyMapError before anything is built; otherwise the bank is built, every
      device is queried and the setup command is sent, whose failure
      propagates out of the constructor.
     */
    static method Open(cfg: Config, maxZone: int, maxPartitions: int, keymap: string)
      returns (r: Result<PanelInterface, PanelError>)
      requires cfg.Valid()
      ensures keymap != "USA" && keymap != "AUNZ" ==> r == Err(KeyMapError)
      ensures (keymap == "USA" || keymap == "AUNZ") && CommandAsWritten(cfg, keymap, SetupCommandName).Err? ==>
        r == Err(CommandAsWritten(cfg, keymap, SetupCommandName).error)
      ensures (keymap == "USA" || keymap == "AUNZ") && CommandAsWritten(cfg, keymap, SetupCommandName).Ok? ==> r.Ok?
      ensures r.Ok? ==>
        && (keymap == "USA" || keymap == "AUNZ") && CommandAsWritten(cfg, keymap, SetupCommandName).Ok?
        && fresh(r.value) && r.value.Valid()
        && r.value.cfg == cfg && r.value.keymap == keymap
        && r.value.maxDevices == Limits(maxZone, maxPartitions)
        && r.value.deviceBank == InitialBank(cfg, Limits(maxZone, maxPartitions))
        && r.value.commandQ == PrimingQueries(Limits(maxZone, maxPartitions))
                               + Enqueued(CommandAsWritten(cfg, keymap, SetupCommandName).value)
        && r.value.delivered == []
    {
      if keymap != "USA" && keymap != "AUNZ" {
        return Err(KeyMapError);
      }
      var p := new PanelInterface(cfg, maxZone, maxPartitions, keymap);
      var err := p.Send(SetupCommandName);
      if err.Some? {
        return Err(err.value);
      }
      return Ok(p);
    }

    /**
      `_process_event(rawEvent)`: decode one status line and merge it into the
      addressed device, calling back for each known value that changes.
      `now` is the time the device records for the values it stores.
     */
    method ProcessEvent(rawEvent: string, now: int) returns (err: Option<PanelError>)
      requires Valid()
      requires !IdLoopHangs(rawEvent)
      modifies this`deviceBank, this`delivered
      ensures Valid()
      ensures match Process(cfg, maxDevices, old(deviceBank), rawEvent, now)
        case Ok(eff) => err == None && deviceBank == eff.bank && delivered == old(delivered) + eff.events
        case Err(e) => err == Some(e) && deviceBank == old(deviceBank) && delivered == old(delivered)
    {
      var d := DecodeLine(cfg, rawEvent);
      assert Process(cfg, maxDevices, deviceBank, rawEvent, now) == Apply(cfg, maxDevices, deviceBank, d, now);
      ApplyKeepsWellFormed(cfg, maxDevices, deviceBank, d, now);
      match d
      case NotStatus =>
        assert Apply(cfg, maxDevices, deviceBank, d, now) == Ok(Effect(deviceBank, []));
        return None;
      case Malformed(e) =>
        assert Apply(cfg, maxDevices, deviceBank, d, now) == Err(e);
        return Some(e);
      case Status(t, id, es) =>
        if id > maxDevices.Max(t) || es == [] {
          assert Apply(cfg, maxDevices, deviceBank, d, now) == Ok(Effect(deviceBank, []));
          return None;
        }
        // Every iteration of the source's loop selects deviceBank[tag][id-1]
        // first; the selection is the same each time, so it is made once here.
        var index := PyIndex(|deviceBank[t]|, id - 1);
        if index.None? {
          assert Apply(cfg, maxDevices, deviceBank, d, now) == Err(IndexError);
          return Some(IndexError);
        }
        ApplySelected(cfg, maxDevices, deviceBank, t, id, es, now, index.value);
        MergeInto(t, index.value, id, es, now);
        return None;
    }

    /**
      The loop of lines 152-181 on device k of tag t: store each changed value
      with its time, and call back unless the stored value was the sentinel.
     */
    method MergeInto(t: Tag, k: nat, id: int, es: seq<Entry>, now: int)
      requires t in deviceBank && k < |deviceBank[t]|
      requires Covers(deviceBank[t][k], es)
      modifies this`deviceBank, this`delivered
      ensures deviceBank == old(deviceBank)[t := old(deviceBank)[t][k := Merge(old(deviceBank)[t][k], t, id, es, now).0]]
      ensures delivered == old(delivered) + Merge(old(deviceBank)[t][k], t, id, es, now).1
    {
      ghost var target := Merge(deviceBank[t][k], t, id, es, now);
      var devices := deviceBank[t];
      var dev := devices[k];
      assert es[0..] == es;
      assert devices[k := dev] == devices;
      var i := 0;
      while i < |es|
        invariant 0 <= i <= |es|
        invariant deviceBank == old(deviceBank)[t := devices[k := dev]]
        invariant Covers(dev, es[i..])
        invariant Merge(dev, t, id, es[i..], now).0 == target.0
        invariant delivered + Merge(dev, t, id, es[i..], now).1 == old(delivered) + target.1
      {
        var e := es[i];
        assert es[i..][0] == e && es[i..][1..] == es[i + 1..];
        var previous := dev[e.attr].value;
        if previous != Known(e.value) {
          var skipCallback := previous == Unset;
          dev := dev[e.attr := Slot(Known(e.value), At(now))];
          deviceBank := deviceBank[t := devices[k := dev]];
          var event := Event(t, id, e.attr, e.value, At(now));
          if !skipCallback {
            delivered := delivered + [event];
          }
        }
        i := i + 1;
      }
      assert es[i..] == [];
    }

    /** `getStatus(queryType, id, element)`: a read of the bank that changes nothing. */
    function GetStatus(queryType: string, id: int, element: string): (r: Result<Slot, PanelError>)
      reads this
      requires Valid()
      requires ParseTag(queryType).Some? ==> element in cfg.Attributes(ParseTag(queryType).value)
      ensures ParseTag(queryType).None? ==> r == Err(GetStatusError("Invalid query type"))
      ensures ParseTag(queryType).Some? && id > maxDevices.Max(ParseTag(queryType).value) ==>
        r == Err(GetStatusError("ID out of range"))
      ensures ParseTag(queryType).Some? && 1 <= id <= maxDevices.Max(ParseTag(queryType).value) ==>
        r == Ok(deviceBank[ParseTag(queryType).value][id - 1][element])
      ensures ParseTag(queryType).Some? && id <= 0 && id <= maxDevices.Max(ParseTag(queryType).value) ==>
        var devices := deviceBank[ParseTag(queryType).value];
        r == if 1 - |devices| <= id then Ok(devices[|devices| + id - 1][element]) else Err(IndexError)
    {
      Query(cfg, maxDevices, deviceBank, queryType, id, element)
    }

    /** `_direct_query(queryType, id)`: enqueue the query for a known tag and an id up to the maximum. */
    method DirectQuery(queryType: string, id: int)
      modifies this`commandQ
      ensures commandQ == old(commandQ) + DirectQueries(maxDevices, queryType, id)
    {
      var t := ParseTag(queryType);
      if t.Some? && id <= maxDevices.Max(t.value) {
        var query;
        if t.value == PA {
          query := PartitionQuery(id);
        } else {
          query := ZoneQuery(id);
        }
        commandQ := commandQ + [query];
      }
    }

    /**
      `send(inCommand)`: select the command string and enqueue it unless it is
      empty; a selection that raises leaves the queue alone.
     */
    method Send(inCommand: string) returns (err: Option<PanelError>)
      modifies this`commandQ
      ensures match CommandAsWritten(cfg, keymap, inCommand)
        case Ok(c) => err == None && commandQ == old(commandQ) + Enqueued(c)
        case Err(e) => err == Some(e) && commandQ == old(commandQ)
    {
      var command := CommandAsWritten(cfg, keymap, inCommand);
      if command.Err? {
        return Some(command.error);
      }
      if command.value != "" {
        commandQ := commandQ + [command.value];
      }
      return None;
    }
  }
}
