/**
  The text protocol of the NX-587E as `PanelInterface` speaks it: decoding a
  zone or partition status line (`_process_event`, pynx587e/controller.py
  lines 103-134), building direct queries (`_direct_query`) and selecting the
  command string `send` enqueues.
 */
module Protocol {
  import opened Wrappers
  import opened PyText
  import opened NxModel

  // ---------------------------------------------------------------------------
  // Status lines
  // ---------------------------------------------------------------------------

  /** The tag a line starts with, when its first two characters are a known tag. */
  function LineTag(line: string): (t: Option<Tag>)
    ensures t.Some? <==> |line| >= 2 && (line[..2] == "ZN" || line[..2] == "PA")
    ensures t.Some? ==> t.value.Name() == line[..2]
  {
    if |line| < 2 then None else ParseTag(line[..2])
  }

  /**
    The lines on which the id loop of `_process_event` never ends: a known tag
    followed by digits up to the end of the line, so that the slice it tests
    stops growing while staying numeric.
   */
  predicate IdLoopHangs(line: string)
  {
    LineTag(line).Some? && |line| > 2 && AllDigits(line[2..])
  }

  /** The number of digits at the start of s. */
  function LeadingDigits(s: string): (k: nat)
    ensures k <= |s|
    ensures AllDigits(s[..k])
    ensures k < |s| ==> !IsDigit(s[k])
  {
    if s == [] || !IsDigit(s[0]) then 0
    else
      var k := 1 + LeadingDigits(s[1..]);
      assert forall i :: 1 <= i < k ==> s[..k][i] == s[1..][..k - 1][i - 1];
      k
  }

  /** A run of digits ended by a non-digit (or the end) is exactly the leading run. */
  lemma {:induction false} LeadingDigitsUnique(s: string, k: nat)
    requires k <= |s| && AllDigits(s[..k])
    requires k == |s| || !IsDigit(s[k])
    ensures LeadingDigits(s) == k
    decreases k
  {
    if k > 0 {
      assert IsDigit(s[0]) by { assert s[..k][0] == s[0]; }
      var tail := s[1..];
      assert tail[..k - 1] == s[..k][1..];
      assert k - 1 < |tail| ==> tail[k - 1] == s[k];
      LeadingDigitsUnique(tail, k - 1);
    }
  }

  /** `id_start_char` once the id loop is done: the position after the digits following the tag. */
  function IdEnd(line: string): (e: nat)
    requires |line| >= 2
    ensures 2 <= e <= |line|
    ensures AllDigits(line[2..e])
    ensures e < |line| ==> !IsDigit(line[e])
  {
    var k := LeadingDigits(line[2..]);
    assert line[2..2 + k] == line[2..][..k];
    2 + k
  }

  /** The id ends at the first non-digit after the tag. */
  lemma IdEndUnique(line: string, e: nat)
    requires 2 <= e <= |line| && AllDigits(line[2..e])
    requires e == |line| || !IsDigit(line[e])
    ensures IdEnd(line) == e
  {
    assert line[2..][..e - 2] == line[2..e];
    if e < |line| {
      assert line[2..][e - 2] == line[e];
    }
    LeadingDigitsUnique(line[2..], e - 2);
  }

  /** The attribute characters: everything after the id except the last character of the line. */
  function StatusChars(line: string): (chars: string)
    requires |line| >= 2
    ensures IdEnd(line) < |line| ==> chars == line[IdEnd(line)..|line| - 1]
    ensures IdEnd(line) >= |line| - 1 ==> chars == []
  {
    PySlice(line, IdEnd(line), |line| - 1)
  }

  /**
    `NXMessage`: the i-th character names the i-th attribute, upper case for
    true; a character beyond the attribute list is an IndexError.
   */
  function Entries(chars: string, attrs: seq<string>): (r: Result<seq<Entry>, PanelError>)
    ensures r.Err? <==> |chars| > |attrs|
    ensures r.Err? ==> r.error == IndexError
    ensures r.Ok? ==> |r.value| == |chars|
    ensures r.Ok? ==> forall i :: 0 <= i < |chars| ==> r.value[i] == Entry(attrs[i], IsUpper(chars[i]))
  {
    if |chars| > |attrs| then Err(IndexError)
    else Ok(seq(|chars|, i requires 0 <= i < |chars| => Entry(attrs[i], IsUpper(chars[i]))))
  }

  /** Attribute characters that agree after the first one give entries that agree after the first one. */
  lemma EntriesAfterFirst(c1: char, c2: char, rest: string, attrs: seq<string>)
    requires 1 + |rest| <= |attrs|
    ensures Entries([c1] + rest, attrs).Ok? && Entries([c2] + rest, attrs).Ok?
    ensures Entries([c1] + rest, attrs).value[0] == Entry(attrs[0], IsUpper(c1))
    ensures Entries([c2] + rest, attrs).value[0] == Entry(attrs[0], IsUpper(c2))
    ensures Entries([c1] + rest, attrs).value[1..] == Entries([c2] + rest, attrs).value[1..]
  {
    var e1, e2 := Entries([c1] + rest, attrs).value, Entries([c2] + rest, attrs).value;
    forall i | 0 <= i < |rest| ensures e1[1..][i] == e2[1..][i] {
      assert ([c1] + rest)[i + 1] == rest[i] == ([c2] + rest)[i + 1];
    }
  }

  /** What `_process_event` makes of a line before it consults the device bank. */
  datatype Decoded =
    | NotStatus                                        // no known tag: the line is ignored
    | Malformed(error: PanelError)                     // the decoding raises
    | Status(tag: Tag, id: nat, entries: seq<Entry>)

  /**
    Decoding as `_process_event` does it: tag, greedy id digits, then the
    attribute characters. The message is built (and may overflow the
    attribute list) before `id` is first read, which raises when no digit
    followed the tag.
   */
  function Decode(cfg: Config, line: string): (d: Decoded)
    requires !IdLoopHangs(line)
    ensures d.Status? ==> LineTag(line) == Some(d.tag)
    ensures Conforms(cfg, d)
  {
    match LineTag(line)
    case None => NotStatus
    case Some(t) =>
      match Entries(StatusChars(line), cfg.Attributes(t))
      case Err(e) => Malformed(e)
      case Ok(es) =>
        if IdEnd(line) == 2 then Malformed(UnboundLocalError)
        else Status(t, DigitsValue(line[2..IdEnd(line)]), es)
  }

  /**
    A decoded status message names, at each position, the attribute of that
    position in its type's list, and no more entries than the list holds.
   */
  predicate Conforms(cfg: Config, d: Decoded)
  {
    d.Status? ==>
      && |d.entries| <= |cfg.Attributes(d.tag)|
      && forall i :: 0 <= i < |d.entries| ==> d.entries[i].attr == cfg.Attributes(d.tag)[i]
  }

  /** A status line as the module sends it: tag, id digits, one character per attribute, terminator. */
  function StatusLine(t: Tag, digits: string, flags: string, terminator: char): string
  {
    t.Name() + digits + flags + [terminator]
  }

  /** The pieces the decoder finds in a status line: its tag, the id digits and the attribute characters. */
  lemma StatusLineParts(t: Tag, digits: string, flags: string, terminator: char)
    requires IsNumeric(digits)
    requires !IsDigit((flags + [terminator])[0])
    ensures var line := StatusLine(t, digits, flags, terminator);
      && LineTag(line) == Some(t) && !IdLoopHangs(line)
      && IdEnd(line) == 2 + |digits| && line[2..IdEnd(line)] == digits
      && StatusChars(line) == flags
  {
    var line := StatusLine(t, digits, flags, terminator);
    var rest := flags + [terminator];
    assert line[..2] == t.Name();
    assert line[2..] == digits + rest;
    assert !AllDigits(line[2..]) by { assert line[2..][|digits|] == rest[0]; }
    assert line[2..2 + |digits|] == digits;
    assert line[2 + |digits|] == rest[0];
    IdEndUnique(line, 2 + |digits|);
    assert line[2 + |digits|..|line| - 1] == flags;
  }

  /**
    Decoding a status line recovers its tag, the value of its id digits and,
    in order, one entry per attribute character: the i-th character sets the
    i-th attribute, true exactly when it is upper case.
   */
  lemma DecodeStatusLine(cfg: Config, t: Tag, digits: string, flags: string, terminator: char)
    requires IsNumeric(digits)
    requires |flags| <= |cfg.Attributes(t)|
    requires !IsDigit((flags + [terminator])[0])
    ensures !IdLoopHangs(StatusLine(t, digits, flags, terminator))
    ensures var d := Decode(cfg, StatusLine(t, digits, flags, terminator));
      && d.Status? && d.tag == t && d.id == DigitsValue(digits)
      && |d.entries| == |flags|
      && forall i :: 0 <= i < |flags| ==> d.entries[i] == Entry(cfg.Attributes(t)[i], IsUpper(flags[i]))
    ensures Decode(cfg, StatusLine(t, digits, flags, terminator)).entries == Entries(flags, cfg.Attributes(t)).value
  {
    StatusLineParts(t, digits, flags, terminator);
  }

  /**
    Conversely, every line that decodes to a status message has that shape:
    tag, a numeral whose value is the id, one character per entry, and a
    final character that is not decoded.
   */
  lemma StatusLineShape(cfg: Config, line: string)
    requires !IdLoopHangs(line)
    requires Decode(cfg, line).Status?
    ensures var d := Decode(cfg, line);
      && 2 < IdEnd(line) < |line|
      && line == StatusLine(d.tag, line[2..IdEnd(line)], line[IdEnd(line)..|line| - 1], line[|line| - 1])
      && IsNumeric(line[2..IdEnd(line)]) && DigitsValue(line[2..IdEnd(line)]) == d.id
      && |d.entries| == |line| - 1 - IdEnd(line)
      && forall i :: 0 <= i < |d.entries| ==> d.entries[i].value == IsUpper(line[IdEnd(line) + i])
  {
    var d := Decode(cfg, line);
    var e := IdEnd(line);
    assert StatusChars(line) == line[e..|line| - 1];
    assert line == line[..2] + line[2..e] + line[e..|line| - 1] + [line[|line| - 1]];
  }

  /**
    The lines that do not decode to a status message: those without a known
    tag are ignored; with a known tag, too many attribute characters raise
    IndexError, and otherwise a tag with no id digit after it leaves `id`
    unbound.
   */
  lemma DecodeOutcome(cfg: Config, line: string)
    requires !IdLoopHangs(line)
    ensures Decode(cfg, line).NotStatus? <==> LineTag(line).None?
    ensures LineTag(line).Some? ==>
      (Decode(cfg, line) == Malformed(IndexError) <==> |StatusChars(line)| > |cfg.Attributes(LineTag(line).value)|)
    ensures LineTag(line).Some? && |StatusChars(line)| <= |cfg.Attributes(LineTag(line).value)| ==>
      (Decode(cfg, line) == Malformed(UnboundLocalError) <==> IdEnd(line) == 2)
  {
  }

  /** A numeric slice `line[2:numChar]` with more than the line's digits after the tag ends inside the line. */
  lemma NumericWithinLine(line: string, numChar: nat)
    requires |line| >= 2 && numChar >= 3
    requires !(|line| > 2 && AllDigits(line[2..]))
    requires IsNumeric(PySlice(line, 2, numChar))
    ensures numChar <= |line| && PySlice(line, 2, numChar) == line[2..numChar]
  {
    var hi := if numChar <= |line| then numChar else |line|;
    assert PySlice(line, 2, numChar) == line[2..hi];
  }

  /**
    The id loop of `_process_event` (lines 113-123): widen the slice that starts
    after the tag by one character while it is numeric, keeping the last value as `id`. The id is absent when
    no digit follows the tag.
   */
  method ScanId(line: string) returns (id: Option<nat>, idStart: nat)
    requires |line| >= 2
    requires !(|line| > 2 && AllDigits(line[2..]))
    ensures idStart == IdEnd(line)
    ensures idStart == 2 ==> id == None
    ensures idStart > 2 ==> id == Some(DigitsValue(line[2..idStart]))
  {
    idStart := 2;
    var numChar := idStart + 1;
    id := None;
    while IsNumeric(PySlice(line, 2, numChar))
      invariant 2 <= idStart <= |line|
      invariant numChar == idStart + 1
      invariant AllDigits(line[2..idStart])
      invariant idStart == 2 ==> id == None
      invariant idStart > 2 ==> id == Some(DigitsValue(line[2..idStart]))
      decreases |line| - idStart
    {
      NumericWithinLine(line, numChar);
      id := Some(DigitsValue(line[2..numChar]));
      numChar := numChar + 1;
      idStart := idStart + 1;
    }
    if idStart < |line| {
      assert PySlice(line, 2, numChar) == line[2..numChar];
      assert line[2..numChar] == line[2..idStart] + [line[idStart]];
      AllDigitsSnoc(line[2..idStart], line[idStart]);
    }
    IdEndUnique(line, idStart);
  }

  /** The loop of line 133 that builds `NXMessage` from the attribute characters. */
  method DecodeAttributes(chars: string, attrs: seq<string>) returns (r: Result<seq<Entry>, PanelError>)
    ensures r == Entries(chars, attrs)
  {
    var msg: seq<Entry> := [];
    for i := 0 to |chars|
      invariant i <= |attrs|
      invariant |msg| == i
      invariant forall k :: 0 <= k < i ==> msg[k] == Entry(attrs[k], IsUpper(chars[k]))
    {
      if i >= |attrs| {
        return Err(IndexError);
      }
      msg := msg + [Entry(attrs[i], IsUpper(chars[i]))];
    }
    assert msg == Entries(chars, attrs).value;
    return Ok(msg);
  }

  /**
    The decoding half of `_process_event` (lines 103-134 and the read of `id`
    at line 150): match the tag, scan the id, build the message.
   */
  method DecodeLine(cfg: Config, line: string) returns (d: Decoded)
    requires !IdLoopHangs(line)
    ensures d == Decode(cfg, line)
  {
    var tag := LineTag(line);
    if tag.None? {
      return NotStatus;
    }
    var id, idStart := ScanId(line);
    var msg := DecodeAttributes(PySlice(line, idStart, |line| - 1), cfg.Attributes(tag.value));
    if msg.Err? {
      return Malformed(msg.error);
    }
    if id.None? {
      return Malformed(UnboundLocalError);
    }
    return Status(tag.value, id.value, msg.value);
  }

  // ---------------------------------------------------------------------------
  // Direct queries
  // ---------------------------------------------------------------------------

  /** Zone queries: `Q` and the id, zero-padded on the left to three characters. */
  function ZoneQuery(id: int): (q: string)
    ensures |q| >= 4 && q[0] == 'Q'
  {
    "Q" + ZFill(IntToString(id), 3)
  }

  /** A zone query for id >= 0 is `Q` and a numeral of at least three digits whose value is the id. */
  lemma ZoneQueryNumeral(id: int)
    requires id >= 0
    ensures var q := ZoneQuery(id);
      && |q| >= 4 && q[0] == 'Q' && IsNumeric(q[1..]) && DigitsValue(q[1..]) == id
      && (|q| == 4 <==> id < 1000)
      && (id >= 100 ==> q[1..] == NatToString(id) && q[1] != '0')
  {
    var q := ZoneQuery(id);
    var s := NatToString(id);
    ShortNumeral(id);
    NumeralLength(id, 2);
    assert Pow10(2) == 100;
    if |s| >= 3 {
      assert q[1..] == s;
    } else {
      ZerosPrefix(3 - |s|, s);
      assert q[1..] == Zeros(3 - |s|) + s;
    }
  }

  /** Partition queries: `Q` and the decimal numeral of 192 + id, unpadded, after the 192 zone addresses. */
  function PartitionQuery(id: int): (q: string)
    ensures |q| >= 2 && q[0] == 'Q'
  {
    "Q" + IntToString(192 + id)
  }

  /** A partition query for 192 + id >= 0 is `Q` and the numeral of 192 + id, at least three digits for id >= 1. */
  lemma PartitionQueryNumeral(id: int)
    requires 192 + id >= 0
    ensures var q := PartitionQuery(id);
      && |q| >= 2 && q[0] == 'Q' && IsNumeric(q[1..]) && DigitsValue(q[1..]) == 192 + id
      && q[1..] == NatToString(192 + id) && (|q| > 2 ==> q[1] != '0')
      && (id >= 1 ==> |q| >= 4)
  {
    var q := PartitionQuery(id);
    assert q[1..] == NatToString(192 + id);
    ShortNumeral(192 + id);
  }

  function QueryString(t: Tag, id: int): string
  {
    match t
    case ZN => ZoneQuery(id)
    case PA => PartitionQuery(id)
  }

  /** What `_direct_query(queryType, id)` puts on the command queue: one query, or nothing. */
  function DirectQueries(lim: Limits, queryType: string, id: int): (qs: seq<string>)
    ensures |qs| <= 1
    ensures |qs| == 1 <==> ParseTag(queryType).Some? && id <= lim.Max(ParseTag(queryType).value)
    ensures |qs| == 1 ==> qs[0] == QueryString(ParseTag(queryType).value, id)
  {
    match ParseTag(queryType)
    case None => []
    case Some(t) => if id <= lim.Max(t) then [QueryString(t, id)] else []
  }

  /** The queries the constructor's loop issues for ids 1..n of one tag, in order. */
  function QueriesUpTo(t: Tag, n: int): (qs: seq<string>)
    ensures |qs| == Count(n)
    ensures forall i :: 0 <= i < |qs| ==> qs[i] == QueryString(t, i + 1)
  {
    seq(Count(n), i => QueryString(t, i + 1))
  }

  /** Querying id n+1 after ids 1..n extends the queries up to n+1 by one. */
  lemma QueriesUpToStep(lim: Limits, q0: seq<string>, t: Tag, n: nat)
    requires n < lim.Max(t)
    ensures q0 + QueriesUpTo(t, n) + DirectQueries(lim, t.Name(), n + 1) == q0 + QueriesUpTo(t, n + 1)
  {
    assert ParseTag(t.Name()) == Some(t);
    assert DirectQueries(lim, t.Name(), n + 1) == [QueryString(t, n + 1)];
    assert QueriesUpTo(t, n) + [QueryString(t, n + 1)] == QueriesUpTo(t, n + 1);
  }

  /**
    All priming queries, in the order of `_NX_MAX_DEVICES`: position k holds
    the query for zone k + 1 while k is below the zone count, and after the
    zones the query for partition k + 1 - zones.
   */
  function PrimingQueries(lim: Limits): (qs: seq<string>)
    ensures |qs| == Count(lim.maxZone) + Count(lim.maxPartitions)
  {
    var zones := Count(lim.maxZone);
    seq(zones + Count(lim.maxPartitions), k => if k < zones then QueryString(ZN, k + 1) else QueryString(PA, k - zones + 1))
  }

  /** The priming queries are the zone loop's queries followed by the partition loop's. */
  lemma PrimingSplit(lim: Limits)
    ensures PrimingQueries(lim) == QueriesUpTo(ZN, lim.maxZone) + QueriesUpTo(PA, lim.maxPartitions)
  {
  }

  /**
    A query names its device: the numeral after `Q` is the zone id, or 192
    plus the partition id. Within the zone range 1-192 no zone query equals a
    partition query, and two queries are equal only for the same device.
   */
  lemma QueryAddressesDevice(t1: Tag, id1: int, t2: Tag, id2: int)
    requires 1 <= id1 && 1 <= id2
    requires t1 == ZN ==> id1 <= 192
    requires t2 == ZN ==> id2 <= 192
    requires QueryString(t1, id1) == QueryString(t2, id2)
    ensures t1 == t2 && id1 == id2
  {
    var q := QueryString(t1, id1);
    if t1 == ZN { ZoneQueryNumeral(id1); } else { PartitionQueryNumeral(id1); }
    if t2 == ZN { ZoneQueryNumeral(id2); } else { PartitionQueryNumeral(id2); }
    var v1 := if t1 == ZN then id1 else 192 + id1;
    var v2 := if t2 == ZN then id2 else 192 + id2;
    assert DigitsValue(q[1..]) == v1;
    assert DigitsValue(q[1..]) == v2;
  }

  // ---------------------------------------------------------------------------
  // Commands
  // ---------------------------------------------------------------------------

  const SetupCommandName := "nx587_setup"

  /** A user code as the documentation of `send` describes it: four or six digits. */
  predicate IsUserCode(c: string)
  {
    IsNumeric(c) && (|c| == 4 || |c| == 6)
  }

  /**
    The `elif` branches of `send`: a keypad function name of the active
    keymap, then the setup command. The keymap table is bound only when the
    keymap is in `_supported_keymaps`; an input matching nothing leaves
    `command` unbound.
   */
  function NamedCommand(cfg: Config, keymap: string, c: string): Result<string, PanelError>
  {
    if keymap !in cfg.keymaps then Err(UnboundLocalError)
    else if c in cfg.keymaps[keymap] then Ok(cfg.keymaps[keymap][c])
    else if c == SetupCommandName then Ok(cfg.setupOptions)
    else Err(UnboundLocalError)
  }

  /**
    Command selection exactly as lines 293-301 are written: for a numeric
    input the length test for six misplaces its parenthesis, so `len` is
    applied to a bool whenever the length is not 4, which raises TypeError.
   */
  function CommandAsWritten(cfg: Config, keymap: string, c: string): (r: Result<string, PanelError>)
    ensures IsNumeric(c) && |c| == 4 ==> r == Ok(c)
    ensures IsNumeric(c) && |c| != 4 ==> r == Err(TypeError)
    ensures r.Err? ==> r.error == TypeError || r.error == UnboundLocalError
  {
    if IsNumeric(c) then
      if |c| == 4 then Ok(c) else Err(TypeError)
    else NamedCommand(cfg, keymap, c)
  }

  /** Command selection as documented: a 4- or 6-digit user code passes through. */
  function Command(cfg: Config, keymap: string, c: string): (r: Result<string, PanelError>)
    ensures IsUserCode(c) ==> r == Ok(c)
    ensures r.Err? ==> r.error == UnboundLocalError
  {
    if IsUserCode(c) then Ok(c) else NamedCommand(cfg, keymap, c)
  }

  /** What a selected command adds to the queue: itself, unless it is empty. */
  function Enqueued(command: string): (qs: seq<string>)
    ensures |qs| <= 1 && (|qs| == 1 <==> command != "")
    ensures |qs| == 1 ==> qs[0] == command
  {
    if command != "" then [command] else []
  }

  /**
    User codes pass through unchanged on either keymap; a name from the
    active keymap table maps to its code; the setup command maps to the setup
    string unless the table itself names it; anything else fails.
   */
  lemma CommandSelection(cfg: Config, keymap: string, c: string)
    ensures IsUserCode(c) ==> Command(cfg, keymap, c) == Ok(c)
    ensures !IsUserCode(c) && keymap in cfg.keymaps && c in cfg.keymaps[keymap] ==>
      Command(cfg, keymap, c) == Ok(cfg.keymaps[keymap][c])
    ensures !IsUserCode(c) && keymap in cfg.keymaps && c !in cfg.keymaps[keymap] && c == SetupCommandName ==>
      Command(cfg, keymap, c) == Ok(cfg.setupOptions)
    ensures Command(cfg, keymap, c).Err? <==>
      !IsUserCode(c) && (keymap !in cfg.keymaps || (c !in cfg.keymaps[keymap] && c != SetupCommandName))
    ensures Command(cfg, keymap, c).Err? ==> Command(cfg, keymap, c).error == UnboundLocalError
  {
  }

  /** The written guard and the documented one agree except on numeric inputs whose length is not 4. */
  lemma CommandAsWrittenAgrees(cfg: Config, keymap: string, c: string)
    requires !IsNumeric(c) || |c| == 4
    ensures CommandAsWritten(cfg, keymap, c) == Command(cfg, keymap, c)
  {
  }

  /** A six-digit user code is refused with a TypeError by the written guard, though documented as accepted. */
  lemma SixDigitCodeAsWritten(cfg: Config, keymap: string)
    ensures CommandAsWritten(cfg, keymap, "123456") == Err(TypeError)
    ensures Command(cfg, keymap, "123456") == Ok("123456")
  {
    assert IsNumeric("123456");
  }
}
