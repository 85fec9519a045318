/**
  The vocabulary of the NX-587E controller: message type tags, the
  configuration that the controller reads from its `model` module, the state
  a `FlexDevice` keeps per attribute, change events and the errors the
  controller's operations can end in.
 */
module NxModel {
  import opened Wrappers

  /** A status message type: zone (`ZN`) or partition (`PA`). */
  datatype Tag = ZN | PA {
    function Name(): string
    {
      match this
      case ZN => "ZN"
      case PA => "PA"
    }
  }

  /** The string-keyed lookup `key in _NX_MESSAGE_TYPES`. */
  function ParseTag(s: string): (t: Option<Tag>)
    ensures t.Some? <==> s == "ZN" || s == "PA"
    ensures t.Some? ==> t.value.Name() == s
  {
    if s == "ZN" then Some(ZN) else if s == "PA" then Some(PA) else None
  }

  /**
    The contents of the controller's `model` module, which this project takes
    as a parameter: the ordered attribute names per tag (`_NX_MESSAGE_TYPES`),
    the keymap tables (`_supported_keymaps`) and the setup string (`_setup_options`).
   */
  datatype Config = Config(
    zoneAttributes: seq<string>,
    partitionAttributes: seq<string>,
    keymaps: map<string, map<string, string>>,
    setupOptions: string)
  {
    function Attributes(t: Tag): seq<string>
    {
      match t
      case ZN => zoneAttributes
      case PA => partitionAttributes
    }

    /** Attribute names within one message type are distinct (they are dictionary keys). */
    predicate Valid()
    {
      Distinct(zoneAttributes) && Distinct(partitionAttributes)
    }
  }

  predicate Distinct(s: seq<string>)
  {
    forall i, j :: 0 <= i < j < |s| ==> s[i] != s[j]
  }

  /** `_NX_MAX_DEVICES`: the highest zone and partition number tracked. */
  datatype Limits = Limits(maxZone: int, maxPartitions: int) {
    function Max(t: Tag): int
    {
      match t
      case ZN => maxZone
      case PA => maxPartitions
    }
  }

  /** How many times `while i < max` runs from 0: the length of a device list. */
  function Count(max: int): nat
  {
    if max < 0 then 0 else max
  }

  /** A stored attribute value; `Unset` is the `-1` sentinel a FlexDevice starts with. */
  datatype Value = Unset | Known(b: bool)

  /** A stored `<attr>_time`; `Unstamped` is the `-1` sentinel. */
  datatype Stamp = Unstamped | At(t: int)

  /** One attribute of a device: its value and its time, always read and written together. */
  datatype Slot = Slot(value: Value, time: Stamp)

  const Unobserved := Slot(Unset, Unstamped)

  /** A FlexDevice: attribute name to value and time. */
  type Device = map<string, Slot>

  /** One decoded attribute of a status line (an item of `NXMessage`). */
  datatype Entry = Entry(attr: string, value: bool)

  /** The dictionary passed to the callback: `{event, id, tag, value, time}`. */
  datatype Event = Event(event: Tag, id: int, tag: string, value: bool, time: Stamp)

  /** The exceptions the modelled operations raise. */
  datatype PanelError =
    | KeyMapError
    | GetStatusError(reason: string)
    | IndexError
    | UnboundLocalError
    | TypeError
}
