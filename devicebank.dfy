/**
  The device bank of `PanelInterface`: one list of FlexDevices per message
  type, and the diff-and-merge `_process_event` performs on it
  (pynx587e/controller.py lines 150-187), stated on values.
 */
module DeviceBank {
  import opened Wrappers
  import opened PyText
  import opened NxModel
  import opened Protocol

  /** `deviceBank`: tag to the list of devices, device `id` at index `id - 1`. */
  type Bank = map<Tag, seq<Device>>

  function AttrSet(attrs: seq<string>): set<string>
  {
    set a | a in attrs
  }

  /** `flexdevice.FlexDevice(attrs)`: every attribute and its time hold the sentinel. */
  function NewDevice(attrs: seq<string>): (d: Device)
    ensures d.Keys == AttrSet(attrs)
    ensures forall a :: a in d ==> d[a] == Unobserved
  {
    map a | a in attrs :: Unobserved
  }

  function Devices(attrs: seq<string>, n: nat): (ds: seq<Device>)
    ensures |ds| == n
    ensures forall j :: 0 <= j < n ==> ds[j] == NewDevice(attrs)
  {
    seq(n, _ => NewDevice(attrs))
  }

  lemma DevicesSnoc(attrs: seq<string>, n: nat)
    ensures Devices(attrs, n) + [NewDevice(attrs)] == Devices(attrs, n + 1)
  {
  }

  /** A device list of the configured length whose devices carry exactly the type's attributes. */
  predicate Fits(ds: seq<Device>, attrs: seq<string>, max: int)
  {
    |ds| == Count(max) && forall j :: 0 <= j < |ds| ==> ds[j].Keys == AttrSet(attrs)
  }

  predicate WellFormed(cfg: Config, lim: Limits, bank: Bank)
  {
    && ZN in bank && Fits(bank[ZN], cfg.zoneAttributes, lim.maxZone)
    && PA in bank && Fits(bank[PA], cfg.partitionAttributes, lim.maxPartitions)
  }

  /** The bank the constructor builds before any status line arrives. */
  function InitialBank(cfg: Config, lim: Limits): (bank: Bank)
    ensures WellFormed(cfg, lim, bank)
    ensures forall t, j, a :: t in bank && 0 <= j < |bank[t]| && a in bank[t][j] ==> bank[t][j][a] == Unobserved
  {
    map[ZN := Devices(cfg.zoneAttributes, Count(lim.maxZone)),
        PA := Devices(cfg.partitionAttributes, Count(lim.maxPartitions))]
  }

  // ---------------------------------------------------------------------------
  // Merging one message into one device
  // ---------------------------------------------------------------------------

  predicate Covers(dev: Device, es: seq<Entry>)
  {
    forall i :: 0 <= i < |es| ==> es[i].attr in dev
  }

  predicate DistinctAttrs(es: seq<Entry>)
  {
    forall i, j :: 0 <= i < j < |es| ==> es[i].attr != es[j].attr
  }

  function AttrsOf(es: seq<Entry>): set<string>
  {
    set i | 0 <= i < |es| :: es[i].attr
  }

  /**
    The loop of lines 152-181, entry by entry: an unchanged value is left
    alone; a changed one is stored with the time of the update, and is
    reported unless the stored value was still the sentinel.
   */
  function Merge(dev: Device, t: Tag, id: int, es: seq<Entry>, now: int): (r: (Device, seq<Event>))
    requires Covers(dev, es)
    ensures r.0.Keys == dev.Keys
    decreases |es|
  {
    if es == [] then (dev, [])
    else
      var e := es[0];
      var prev := dev[e.attr].value;
      if prev == Known(e.value) then Merge(dev, t, id, es[1..], now)
      else
        var dev' := dev[e.attr := Slot(Known(e.value), At(now))];
        var rest := Merge(dev', t, id, es[1..], now);
        (rest.0, (if prev == Unset then [] else [Event(t, id, e.attr, e.value, At(now))]) + rest.1)
  }

  /** The slot a message leaves: untouched if the value is the same, else the new value stamped now. */
  function Settled(s: Slot, v: bool, now: int): Slot
  {
    if s.value == Known(v) then s else Slot(Known(v), At(now))
  }

  /** The stored value is known and the message carries the other one. */
  predicate Flips(dev: Device, e: Entry)
    requires e.attr in dev
  {
    dev[e.attr].value.Known? && dev[e.attr].value.b != e.value
  }

  /** The events a message should report, judged against the device as it was: one per flip, in message order. */
  function ChangeEvents(dev: Device, t: Tag, id: int, es: seq<Entry>, now: int): seq<Event>
    requires Covers(dev, es)
    decreases |es|
  {
    if es == [] then []
    else
      (if Flips(dev, es[0]) then [Event(t, id, es[0].attr, es[0].value, At(now))] else [])
      + ChangeEvents(dev, t, id, es[1..], now)
  }

  /** The events that concern one attribute. */
  function EventsAbout(evs: seq<Event>, a: string): (r: seq<Event>)
    ensures forall k :: 0 <= k < |r| ==> r[k].tag == a
  {
    if evs == [] then []
    else (if evs[0].tag == a then [evs[0]] else []) + EventsAbout(evs[1..], a)
  }

  lemma {:induction false} EventsAboutAppend(x: seq<Event>, y: seq<Event>, a: string)
    ensures EventsAbout(x + y, a) == EventsAbout(x, a) + EventsAbout(y, a)
  {
    if x != [] {
      assert (x + y)[1..] == x[1..] + y;
      EventsAboutAppend(x[1..], y, a);
    } else {
      assert x + y == y;
    }
  }

  /** ChangeEvents only looks at the attributes the message names. */
  lemma {:induction false} ChangeEventsFrame(d1: Device, d2: Device, t: Tag, id: int, es: seq<Entry>, now: int)
    requires Covers(d1, es) && Covers(d2, es)
    requires forall i :: 0 <= i < |es| ==> d1[es[i].attr] == d2[es[i].attr]
    ensures ChangeEvents(d1, t, id, es, now) == ChangeEvents(d2, t, id, es, now)
  {
    if es != [] {
      ChangeEventsFrame(d1, d2, t, id, es[1..], now);
    }
  }

  /**
    Merging a message with distinct attributes settles each named attribute
    and leaves every other attribute alone.
   */
  lemma {:induction false} MergeSettles(dev: Device, t: Tag, id: int, es: seq<Entry>, now: int)
    requires Covers(dev, es) && DistinctAttrs(es)
    ensures forall i :: 0 <= i < |es| ==>
      Merge(dev, t, id, es, now).0[es[i].attr] == Settled(dev[es[i].attr], es[i].value, now)
    ensures forall a :: a in dev && a !in AttrsOf(es) ==> Merge(dev, t, id, es, now).0[a] == dev[a]
    decreases |es|
  {
    if es != [] {
      var e := es[0];
      var rest := es[1..];
      assert forall i :: 1 <= i < |es| ==> es[i] == rest[i - 1];
      assert e.attr !in AttrsOf(rest);
      assert forall a :: a !in AttrsOf(es) ==> a != e.attr && a !in AttrsOf(rest);
      if dev[e.attr].value == Known(e.value) {
        MergeSettles(dev, t, id, rest, now);
      } else {
        MergeSettles(dev[e.attr := Slot(Known(e.value), At(now))], t, id, rest, now);
      }
    }
  }

  /** Merging a message with distinct attributes reports exactly ChangeEvents. */
  lemma {:induction false} MergeReports(dev: Device, t: Tag, id: int, es: seq<Entry>, now: int)
    requires Covers(dev, es) && DistinctAttrs(es)
    ensures Merge(dev, t, id, es, now).1 == ChangeEvents(dev, t, id, es, now)
    decreases |es|
  {
    if es != [] {
      var e := es[0];
      var rest := es[1..];
      if dev[e.attr].value == Known(e.value) {
        MergeReports(dev, t, id, rest, now);
      } else {
        var dev' := dev[e.attr := Slot(Known(e.value), At(now))];
        MergeReports(dev', t, id, rest, now);
        forall i | 0 <= i < |rest| ensures dev'[rest[i].attr] == dev[rest[i].attr] {
          assert rest[i] == es[i + 1];
        }
        ChangeEventsFrame(dev', dev, t, id, rest, now);
      }
    }
  }

  /**
    Merging a message with distinct attributes settles each named attribute,
    leaves every other attribute alone, and reports exactly ChangeEvents.
   */
  lemma MergeMeetsSpec(dev: Device, t: Tag, id: int, es: seq<Entry>, now: int)
    requires Covers(dev, es) && DistinctAttrs(es)
    ensures forall i :: 0 <= i < |es| ==>
      Merge(dev, t, id, es, now).0[es[i].attr] == Settled(dev[es[i].attr], es[i].value, now)
    ensures forall a :: a in dev && a !in AttrsOf(es) ==> Merge(dev, t, id, es, now).0[a] == dev[a]
    ensures Merge(dev, t, id, es, now).1 == ChangeEvents(dev, t, id, es, now)
  {
    MergeSettles(dev, t, id, es, now);
    MergeReports(dev, t, id, es, now);
  }

  /** A message whose attributes are all unset reports nothing. */
  lemma {:induction false} UnobservedReportsNothing(dev: Device, t: Tag, id: int, es: seq<Entry>, now: int)
    requires Covers(dev, es)
    requires forall i :: 0 <= i < |es| ==> dev[es[i].attr].value == Unset
    ensures ChangeEvents(dev, t, id, es, now) == []
  {
    if es != [] {
      UnobservedReportsNothing(dev, t, id, es[1..], now);
    }
  }

  /** A message none of whose values flip reports nothing. */
  lemma {:induction false} NoFlipsReportNothing(dev: Device, t: Tag, id: int, es: seq<Entry>, now: int)
    requires Covers(dev, es)
    requires forall i :: 0 <= i < |es| ==> !Flips(dev, es[i])
    ensures ChangeEvents(dev, t, id, es, now) == []
  {
    if es != [] {
      NoFlipsReportNothing(dev, t, id, es[1..], now);
    }
  }

  /** No event concerns an attribute the message does not name. */
  lemma {:induction false} ChangeEventsAboutOther(dev: Device, t: Tag, id: int, es: seq<Entry>, now: int, a: string)
    requires Covers(dev, es)
    requires a !in AttrsOf(es)
    ensures EventsAbout(ChangeEvents(dev, t, id, es, now), a) == []
  {
    if es != [] {
      var head := if Flips(dev, es[0]) then [Event(t, id, es[0].attr, es[0].value, At(now))] else [];
      assert es[0].attr in AttrsOf(es);
      assert AttrsOf(es[1..]) <= AttrsOf(es) by {
        forall x | x in AttrsOf(es[1..]) ensures x in AttrsOf(es) {
          var k :| 0 <= k < |es[1..]| && es[1..][k].attr == x;
          assert es[k + 1].attr == x;
        }
      }
      EventsAboutAppend(head, ChangeEvents(dev, t, id, es[1..], now), a);
      ChangeEventsAboutOther(dev, t, id, es[1..], now, a);
    }
  }

  /** The events about the i-th attribute of a message: one if its stored value flips, none otherwise. */
  lemma {:induction false} ChangeEventsAbout(dev: Device, t: Tag, id: int, es: seq<Entry>, now: int, i: nat)
    requires Covers(dev, es) && DistinctAttrs(es)
    requires i < |es|
    ensures EventsAbout(ChangeEvents(dev, t, id, es, now), es[i].attr) ==
      if Flips(dev, es[i]) then [Event(t, id, es[i].attr, es[i].value, At(now))] else []
    decreases |es|
  {
    var e := es[0];
    var rest := es[1..];
    var head := if Flips(dev, e) then [Event(t, id, e.attr, e.value, At(now))] else [];
    EventsAboutAppend(head, ChangeEvents(dev, t, id, rest, now), es[i].attr);
    if i == 0 {
      assert e.attr !in AttrsOf(rest);
      ChangeEventsAboutOther(dev, t, id, rest, now, e.attr);
    } else {
      assert rest[i - 1] == es[i];
      ChangeEventsAbout(dev, t, id, rest, now, i - 1);
    }
  }

  // ---------------------------------------------------------------------------
  // Processing one status line
  // ---------------------------------------------------------------------------

  /** The new bank and the callback invocations, in order, that one line causes. */
  datatype Effect = Effect(bank: Bank, events: seq<Event>)

  /**
    The merge half of `_process_event` (lines 150-187) on a decoded message:
    messages that are not status messages and ids above the configured
    maximum leave the bank alone; decoding errors and a bad list index raise;
    otherwise the addressed device is merged.
   */
  function Apply(cfg: Config, lim: Limits, bank: Bank, d: Decoded, now: int): (r: Result<Effect, PanelError>)
    requires WellFormed(cfg, lim, bank) && Conforms(cfg, d)
    ensures d.NotStatus? ==> r == Ok(Effect(bank, []))
    ensures d.Malformed? ==> r == Err(d.error)
    ensures d.Status? && (d.id > lim.Max(d.tag) || d.entries == []) ==> r == Ok(Effect(bank, []))
    ensures d.Status? && d.id <= lim.Max(d.tag) && d.entries != [] && d.id < 1 - |bank[d.tag]| ==> r == Err(IndexError)
  {
    match d
    case NotStatus => Ok(Effect(bank, []))
    case Malformed(e) => Err(e)
    case Status(t, id, es) =>
      if id > lim.Max(t) || es == [] then Ok(Effect(bank, []))
      else
        match PyIndex(|bank[t]|, id - 1)
        case None => Err(IndexError)
        case Some(k) =>
          ConformingCovers(cfg, lim, bank, t, id, es, k);
          var m := Merge(bank[t][k], t, id, es, now);
          Ok(Effect(bank[t := bank[t][k := m.0]], m.1))
  }

  /** `_process_event(rawEvent)` on values: decode the line, then merge it. */
  function Process(cfg: Config, lim: Limits, bank: Bank, line: string, now: int): (r: Result<Effect, PanelError>)
    requires WellFormed(cfg, lim, bank)
    requires !IdLoopHangs(line)
    ensures r.Ok? ==> WellFormed(cfg, lim, r.value.bank)
  {
    ApplyKeepsWellFormed(cfg, lim, bank, Decode(cfg, line), now);
    Apply(cfg, lim, bank, Decode(cfg, line), now)
  }

  /** A merge keeps the bank's shape: the same device counts, each device with its type's attributes. */
  lemma ApplyKeepsWellFormed(cfg: Config, lim: Limits, bank: Bank, d: Decoded, now: int)
    requires WellFormed(cfg, lim, bank) && Conforms(cfg, d)
    ensures Apply(cfg, lim, bank, d, now).Ok? ==> WellFormed(cfg, lim, Apply(cfg, lim, bank, d, now).value.bank)
  {
  }

  /**
    A line without a known tag, or one addressed to an id above the
    configured maximum, changes no device and reports nothing.
   */
  lemma IgnoredLine(cfg: Config, lim: Limits, bank: Bank, line: string, now: int)
    requires WellFormed(cfg, lim, bank) && !IdLoopHangs(line)
    requires LineTag(line).None? || (Decode(cfg, line).Status? && Decode(cfg, line).id > lim.Max(Decode(cfg, line).tag))
    ensures Process(cfg, lim, bank, line, now) == Ok(Effect(bank, []))
  {
  }

  /** The entries of a conforming message name distinct attributes of its type. */
  lemma ConformingEntries(cfg: Config, t: Tag, id: nat, es: seq<Entry>)
    requires cfg.Valid() && Conforms(cfg, Status(t, id, es))
    ensures DistinctAttrs(es)
    ensures forall i :: 0 <= i < |es| ==> es[i].attr in AttrSet(cfg.Attributes(t))
  {
    assert Distinct(cfg.Attributes(t));
  }

  /** Every device of a well-formed bank holds each attribute a conforming message names. */
  lemma ConformingCovers(cfg: Config, lim: Limits, bank: Bank, t: Tag, id: nat, es: seq<Entry>, k: nat)
    requires WellFormed(cfg, lim, bank) && Conforms(cfg, Status(t, id, es))
    requires k < |bank[t]|
    ensures Covers(bank[t][k], es)
  {
    forall i | 0 <= i < |es| ensures es[i].attr in bank[t][k] {
      assert es[i].attr == cfg.Attributes(t)[i];
    }
  }

  /**
    Only the device the id selects can change: every other device of every
    type is the same afterwards.
   */
  lemma ApplyTouchesOnlyAddressedDevice(cfg: Config, lim: Limits, bank: Bank, d: Decoded, now: int, u: Tag, j: nat)
    requires WellFormed(cfg, lim, bank) && Conforms(cfg, d)
    requires Apply(cfg, lim, bank, d, now).Ok?
    requires j < |bank[u]|
    requires !(d.Status? && d.tag == u && PyIndex(|bank[u]|, d.id - 1) == Some(j))
    ensures u in Apply(cfg, lim, bank, d, now).value.bank
    ensures Apply(cfg, lim, bank, d, now).value.bank[u][j] == bank[u][j]
  {
  }

  /**
    A status message with 1 <= id <= max merges its entries into device
    `id - 1` of its type and nothing else.
   */
  lemma ApplyStatus(cfg: Config, lim: Limits, bank: Bank, t: Tag, id: nat, es: seq<Entry>, now: int)
    requires WellFormed(cfg, lim, bank) && Conforms(cfg, Status(t, id, es))
    requires 1 <= id <= lim.Max(t)
    ensures Covers(bank[t][id - 1], es)
    ensures Apply(cfg, lim, bank, Status(t, id, es), now) ==
      Ok(Effect(bank[t := bank[t][id - 1 := Merge(bank[t][id - 1], t, id, es, now).0]],
                Merge(bank[t][id - 1], t, id, es, now).1))
  {
    ConformingCovers(cfg, lim, bank, t, id, es, id - 1);
    if es == [] {
      assert bank[t][id - 1 := bank[t][id - 1]] == bank[t];
      assert bank[t := bank[t]] == bank;
    } else {
      ApplySelected(cfg, lim, bank, t, id, es, now, id - 1);
    }
  }

  /** The Status case of Apply for whichever device the id selects, id 0 included. */
  lemma ApplySelected(cfg: Config, lim: Limits, bank: Bank, t: Tag, id: nat, es: seq<Entry>, now: int, k: nat)
    requires WellFormed(cfg, lim, bank) && Conforms(cfg, Status(t, id, es))
    requires id <= lim.Max(t) && es != []
    requires PyIndex(|bank[t]|, id - 1) == Some(k)
    ensures k < |bank[t]| && Covers(bank[t][k], es)
    ensures Apply(cfg, lim, bank, Status(t, id, es), now) ==
      Ok(Effect(bank[t := bank[t][k := Merge(bank[t][k], t, id, es, now).0]],
                Merge(bank[t][k], t, id, es, now).1))
  {
    ConformingCovers(cfg, lim, bank, t, id, es, k);
  }

  /**
    The callbacks of one status message are ChangeEvents of the addressed
    device: one per attribute whose known value flips, in attribute-list order.
   */
  lemma ApplyReportsInAttributeOrder(cfg: Config, lim: Limits, bank: Bank, t: Tag, id: nat, es: seq<Entry>, now: int)
    requires cfg.Valid() && WellFormed(cfg, lim, bank) && Conforms(cfg, Status(t, id, es))
    requires 1 <= id <= lim.Max(t)
    ensures Covers(bank[t][id - 1], es)
    ensures var r := Apply(cfg, lim, bank, Status(t, id, es), now);
      r.Ok? && r.value.events == ChangeEvents(bank[t][id - 1], t, id, es, now)
  {
    ApplyStatus(cfg, lim, bank, t, id, es, now);
    ConformingEntries(cfg, t, id, es);
    MergeMeetsSpec(bank[t][id - 1], t, id, es, now);
  }

  /**
    For each attribute a status message names, with 1 <= id <= max: the
    stored slot becomes Settled, and exactly the events described by Flips
    concern that attribute.
   */
  lemma ApplySettlesAttribute(cfg: Config, lim: Limits, bank: Bank, t: Tag, id: nat, es: seq<Entry>, now: int, i: nat)
    requires cfg.Valid() && WellFormed(cfg, lim, bank) && Conforms(cfg, Status(t, id, es))
    requires 1 <= id <= lim.Max(t)
    requires i < |es|
    ensures es[i].attr in bank[t][id - 1]
    ensures var r := Apply(cfg, lim, bank, Status(t, id, es), now);
      && r.Ok?
      && r.value.bank[t][id - 1][es[i].attr] == Settled(bank[t][id - 1][es[i].attr], es[i].value, now)
      && EventsAbout(r.value.events, es[i].attr) ==
           if Flips(bank[t][id - 1], es[i]) then [Event(t, id, es[i].attr, es[i].value, At(now))] else []
  {
    ApplyStatus(cfg, lim, bank, t, id, es, now);
    ConformingEntries(cfg, t, id, es);
    MergeMeetsSpec(bank[t][id - 1], t, id, es, now);
    ChangeEventsAbout(bank[t][id - 1], t, id, es, now, i);
  }

  /**
    Attributes a status message does not name keep their slot, and no
    callback concerns them.
   */
  lemma ApplyKeepsUnnamedAttributes(cfg: Config, lim: Limits, bank: Bank, t: Tag, id: nat, es: seq<Entry>, now: int, a: string)
    requires cfg.Valid() && WellFormed(cfg, lim, bank) && Conforms(cfg, Status(t, id, es))
    requires 1 <= id <= lim.Max(t)
    requires a in bank[t][id - 1] && a !in AttrsOf(es)
    ensures var r := Apply(cfg, lim, bank, Status(t, id, es), now);
      && r.Ok?
      && r.value.bank[t][id - 1][a] == bank[t][id - 1][a]
      && EventsAbout(r.value.events, a) == []
  {
    ApplyStatus(cfg, lim, bank, t, id, es, now);
    ConformingEntries(cfg, t, id, es);
    MergeMeetsSpec(bank[t][id - 1], t, id, es, now);
    ChangeEventsAboutOther(bank[t][id - 1], t, id, es, now, a);
  }

  /**
    Priming: an attribute still holding the sentinel takes the message's
    value and time, and no callback concerns it.
   */
  lemma PrimingSkipsCallback(cfg: Config, lim: Limits, bank: Bank, t: Tag, id: nat, es: seq<Entry>, now: int, i: nat)
    requires cfg.Valid() && WellFormed(cfg, lim, bank) && Conforms(cfg, Status(t, id, es))
    requires 1 <= id <= lim.Max(t)
    requires i < |es| && es[i].attr in bank[t][id - 1]
    requires bank[t][id - 1][es[i].attr].value == Unset
    ensures var r := Apply(cfg, lim, bank, Status(t, id, es), now);
      && r.Ok?
      && r.value.bank[t][id - 1][es[i].attr] == Slot(Known(es[i].value), At(now))
      && EventsAbout(r.value.events, es[i].attr) == []
  {
    ApplySettlesAttribute(cfg, lim, bank, t, id, es, now, i);
  }

  /** A known value that changes is stored with the new time and reported exactly once. */
  lemma ChangeReportedOnce(cfg: Config, lim: Limits, bank: Bank, t: Tag, id: nat, es: seq<Entry>, now: int, i: nat)
    requires cfg.Valid() && WellFormed(cfg, lim, bank) && Conforms(cfg, Status(t, id, es))
    requires 1 <= id <= lim.Max(t)
    requires i < |es| && es[i].attr in bank[t][id - 1]
    requires bank[t][id - 1][es[i].attr].value == Known(!es[i].value)
    ensures var r := Apply(cfg, lim, bank, Status(t, id, es), now);
      && r.Ok?
      && r.value.bank[t][id - 1][es[i].attr] == Slot(Known(es[i].value), At(now))
      && EventsAbout(r.value.events, es[i].attr) == [Event(t, id, es[i].attr, es[i].value, At(now))]
  {
    ApplySettlesAttribute(cfg, lim, bank, t, id, es, now, i);
  }

  /** A known value that the message repeats is neither stored again nor reported. */
  lemma RepeatIsSilent(cfg: Config, lim: Limits, bank: Bank, t: Tag, id: nat, es: seq<Entry>, now: int, i: nat)
    requires cfg.Valid() && WellFormed(cfg, lim, bank) && Conforms(cfg, Status(t, id, es))
    requires 1 <= id <= lim.Max(t)
    requires i < |es| && es[i].attr in bank[t][id - 1]
    requires bank[t][id - 1][es[i].attr].value == Known(es[i].value)
    ensures var r := Apply(cfg, lim, bank, Status(t, id, es), now);
      && r.Ok?
      && r.value.bank[t][id - 1][es[i].attr] == bank[t][id - 1][es[i].attr]
      && EventsAbout(r.value.events, es[i].attr) == []
  {
    ApplySettlesAttribute(cfg, lim, bank, t, id, es, now, i);
  }

  /** On the bank the constructor builds, any message primes silently: no callback at all. */
  lemma FirstMessageIsSilent(cfg: Config, lim: Limits, d: Decoded, now: int)
    requires cfg.Valid() && Conforms(cfg, d)
    requires Apply(cfg, lim, InitialBank(cfg, lim), d, now).Ok?
    ensures Apply(cfg, lim, InitialBank(cfg, lim), d, now).value.events == []
  {
    var bank := InitialBank(cfg, lim);
    if d.Status? && d.id <= lim.Max(d.tag) && d.entries != [] {
      var k := PyIndex(|bank[d.tag]|, d.id - 1).value;
      ConformingEntries(cfg, d.tag, d.id, d.entries);
      var dev := bank[d.tag][k];
      assert Covers(dev, d.entries);
      MergeMeetsSpec(dev, d.tag, d.id, d.entries, now);
      UnobservedReportsNothing(dev, d.tag, d.id, d.entries, now);
    }
  }

  // ---------------------------------------------------------------------------
  // Reading the bank
  // ---------------------------------------------------------------------------

  /**
    `getStatus(queryType, id, element)`: the stored value and time of one
    attribute; an unknown type or an id above the maximum is a GetStatusError.
    The range check is an upper bound only, so ids below 1 select from the end
    of the list as Python indexing does.
   */
  function Query(cfg: Config, lim: Limits, bank: Bank, queryType: string, id: int, element: string): (r: Result<Slot, PanelError>)
    requires WellFormed(cfg, lim, bank)
    requires ParseTag(queryType).Some? ==> element in cfg.Attributes(ParseTag(queryType).value)
    ensures ParseTag(queryType).None? ==> r == Err(GetStatusError("Invalid query type"))
    ensures ParseTag(queryType).Some? && id > lim.Max(ParseTag(queryType).value) ==>
      r == Err(GetStatusError("ID out of range"))
    ensures ParseTag(queryType).Some? && 1 <= id <= lim.Max(ParseTag(queryType).value) ==>
      r == Ok(bank[ParseTag(queryType).value][id - 1][element])
    ensures ParseTag(queryType).Some? && id <= 0 && id <= lim.Max(ParseTag(queryType).value) ==>
      var devices := bank[ParseTag(queryType).value];
      r == if 1 - |devices| <= id then Ok(devices[|devices| + id - 1][element]) else Err(IndexError)
  {
    match ParseTag(queryType)
    case None => Err(GetStatusError("Invalid query type"))
    case Some(t) =>
      if id > lim.Max(t) then Err(GetStatusError("ID out of range"))
      else
        match PyIndex(|bank[t]|, id - 1)
        case None => Err(IndexError)
        case Some(k) => Ok(bank[t][k][element])
  }

  /** Before any status line, every attribute of every configured device reads as the sentinel pair. */
  lemma QueryInitialBank(cfg: Config, lim: Limits, t: Tag, id: int, element: string)
    requires 1 <= id <= lim.Max(t)
    requires element in cfg.Attributes(t)
    ensures Query(cfg, lim, InitialBank(cfg, lim), t.Name(), id, element) == Ok(Unobserved)
  {
  }

  /**
    After a status message with 1 <= id <= max, `getStatus` on each attribute
    it names returns the settled pair: the primed or changed value with the
    message's time, or the earlier pair when the value repeats.
   */
  lemma QueryAfterApply(cfg: Config, lim: Limits, bank: Bank, t: Tag, id: nat, es: seq<Entry>, now: int, i: nat)
    requires cfg.Valid() && WellFormed(cfg, lim, bank) && Conforms(cfg, Status(t, id, es))
    requires 1 <= id <= lim.Max(t)
    requires i < |es|
    ensures es[i].attr in bank[t][id - 1] && es[i].attr in cfg.Attributes(t)
    ensures var r := Apply(cfg, lim, bank, Status(t, id, es), now);
      && r.Ok?
      && Query(cfg, lim, r.value.bank, t.Name(), id, es[i].attr) == Ok(Settled(bank[t][id - 1][es[i].attr], es[i].value, now))
  {
    ApplySettlesAttribute(cfg, lim, bank, t, id, es, now, i);
    assert es[i].attr == cfg.Attributes(t)[i];
  }

  /**
    A message that primes a device and a second one that differs from it only
    in a first attribute flipped from true to false: the first reports
    nothing, the second exactly that one change.
   */
  lemma PrimeThenFlipFirst(cfg: Config, lim: Limits, t: Tag, id: nat, es1: seq<Entry>, es2: seq<Entry>, now1: int, now2: int)
    requires cfg.Valid() && 1 <= id <= lim.Max(t)
    requires Conforms(cfg, Status(t, id, es1)) && Conforms(cfg, Status(t, id, es2))
    requires |es1| == |es2| > 0
    requires es1[0].value && !es2[0].value
    requires forall i :: 1 <= i < |es1| ==> es1[i].value == es2[i].value
    ensures var r1 := Apply(cfg, lim, InitialBank(cfg, lim), Status(t, id, es1), now1);
      && r1.Ok? && r1.value.events == [] && WellFormed(cfg, lim, r1.value.bank)
      && var r2 := Apply(cfg, lim, r1.value.bank, Status(t, id, es2), now2);
      && r2.Ok? && r2.value.events == [Event(t, id, es2[0].attr, false, At(now2))]
  {
    var b0 := InitialBank(cfg, lim);
    FirstMessageIsSilent(cfg, lim, Status(t, id, es1), now1);
    PrimedSlots(cfg, lim, t, id, es1, now1);
    ApplyKeepsWellFormed(cfg, lim, b0, Status(t, id, es1), now1);
    var b1 := Apply(cfg, lim, b0, Status(t, id, es1), now1).value.bank;
    var dev := b1[t][id - 1];
    ApplyReportsInAttributeOrder(cfg, lim, b1, t, id, es2, now2);
    assert forall i :: 0 <= i < |es1| ==> es1[i].attr == es2[i].attr;
    OnlyFirstFlips(dev, t, id, es2, now2);
  }

  /** After the first message for a fresh device, each attribute it names holds its value, stamped then. */
  lemma PrimedSlots(cfg: Config, lim: Limits, t: Tag, id: nat, es: seq<Entry>, now: int)
    requires cfg.Valid() && 1 <= id <= lim.Max(t) && Conforms(cfg, Status(t, id, es))
    ensures var r := Apply(cfg, lim, InitialBank(cfg, lim), Status(t, id, es), now);
      && r.Ok? && id - 1 < |r.value.bank[t]|
      && forall i :: 0 <= i < |es| ==>
           es[i].attr in r.value.bank[t][id - 1] && r.value.bank[t][id - 1][es[i].attr] == Slot(Known(es[i].value), At(now))
  {
    var b0 := InitialBank(cfg, lim);
    ApplyStatus(cfg, lim, b0, t, id, es, now);
    ConformingEntries(cfg, t, id, es);
    MergeMeetsSpec(b0[t][id - 1], t, id, es, now);
  }

  /**
    Two status lines for the same device of a fresh bank, the first with an
    upper-case first attribute character and the second with the same
    characters except a lower-case first one: the first line primes silently,
    the second reports the first attribute turning false.
   */
  lemma FlipFirstFlag(cfg: Config, lim: Limits, t: Tag, digits: string, rest: string, terminator: char, now1: int, now2: int)
    requires cfg.Valid()
    requires IsNumeric(digits) && 1 <= DigitsValue(digits) <= lim.Max(t)
    requires 1 + |rest| <= |cfg.Attributes(t)|
    ensures !IdLoopHangs(StatusLine(t, digits, ['F'] + rest, terminator))
    ensures !IdLoopHangs(StatusLine(t, digits, ['f'] + rest, terminator))
    ensures var r1 := Process(cfg, lim, InitialBank(cfg, lim), StatusLine(t, digits, ['F'] + rest, terminator), now1);
      && r1.Ok? && r1.value.events == []
      && var r2 := Process(cfg, lim, r1.value.bank, StatusLine(t, digits, ['f'] + rest, terminator), now2);
      && r2.Ok? && r2.value.events == [Event(t, DigitsValue(digits), cfg.Attributes(t)[0], false, At(now2))]
  {
    var attrs := cfg.Attributes(t);
    DecodeStatusLine(cfg, t, digits, ['F'] + rest, terminator);
    DecodeStatusLine(cfg, t, digits, ['f'] + rest, terminator);
    EntriesAfterFirst('F', 'f', rest, attrs);
    var es1, es2 := Entries(['F'] + rest, attrs).value, Entries(['f'] + rest, attrs).value;
    forall i | 1 <= i < |es1| ensures es1[i].value == es2[i].value {
      assert es1[i] == es1[1..][i - 1] && es2[i] == es2[1..][i - 1];
    }
    PrimeThenFlipFirst(cfg, lim, t, DigitsValue(digits), es1, es2, now1, now2);
  }

  /** When only the first entry flips its attribute, that entry is the one change reported. */
  lemma OnlyFirstFlips(dev: Device, t: Tag, id: int, es: seq<Entry>, now: int)
    requires Covers(dev, es) && es != []
    requires Flips(dev, es[0])
    requires forall i :: 1 <= i < |es| ==> !Flips(dev, es[i])
    ensures ChangeEvents(dev, t, id, es, now) == [Event(t, id, es[0].attr, es[0].value, At(now))]
  {
    NoFlipsReportNothing(dev, t, id, es[1..], now);
  }

  /**
    Zone 1 is primed by `ZN001Fttbaillb` without a callback; `ZN001fttbaillb`
    then flips its first attribute (fault) to false and yields exactly one
    callback, for that attribute, with the new value and time.
   */
  lemma TwoLineScenario(cfg: Config, partitions: int, now1: int, now2: int)
    requires cfg.Valid() && |cfg.zoneAttributes| >= 8
    ensures !IdLoopHangs("ZN001Fttbaillb") && !IdLoopHangs("ZN001fttbaillb")
    ensures var lim := Limits(1, partitions);
      var r1 := Process(cfg, lim, InitialBank(cfg, lim), "ZN001Fttbaillb", now1);
      && r1.Ok? && r1.value.events == []
      && var r2 := Process(cfg, lim, r1.value.bank, "ZN001fttbaillb", now2);
      && r2.Ok? && r2.value.events == [Event(ZN, 1, cfg.zoneAttributes[0], false, At(now2))]
  {
    assert DigitsValue("001") == 1 by {
      assert "001"[..2] == "00" && "00"[..1] == "0" && "0"[..0] == [];
    }
    assert "ZN001Fttbaillb" == StatusLine(ZN, "001", ['F'] + "ttbaill", 'b');
    assert "ZN001fttbaillb" == StatusLine(ZN, "001", ['f'] + "ttbaill", 'b');
    FlipFirstFlag(cfg, Limits(1, partitions), ZN, "001", "ttbaill", 'b', now1, now2);
  }

}
