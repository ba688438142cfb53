/**
 * The text commands the client sends over the control socket, and the bounded
 * buffer (a `MutableSharedFlow` with 64 extra slots that drops the oldest
 * value on overflow) they pass through on the way there.
 */
module Commands {
  import opened Wrappers
  import opened KotlinStd

  /** The three commands the session sends: tune, equaliser/IMS flags and antenna. */
  datatype Command = Tune(kHz: int) | EqIms(eq: bool, ims: bool) | Antenna(index: int)

  /** The digit a flag is sent as. */
  function FlagDigit(b: bool): char {
    if b then '1' else '0'
  }

  /** The wire form: `T<kHz>`, `G<eq><ims>` with 0/1 digits, `Z<index>`. */
  function Encode(c: Command): (s: string)
    ensures |s| >= 2
    ensures c.Tune? ==> s[0] == 'T' && s[1..] == IntToString(c.kHz)
    ensures c.EqIms? ==> s == ['G', FlagDigit(c.eq), FlagDigit(c.ims)]
    ensures c.Antenna? ==> s[0] == 'Z' && s[1..] == IntToString(c.index)
  {
    match c
    case Tune(kHz) => "T" + IntToString(kHz)
    case EqIms(eq, ims) => ['G', FlagDigit(eq), FlagDigit(ims)]
    case Antenna(index) => "Z" + IntToString(index)
  }

  /** Text of the form an optional '-' followed by decimal digits. */
  predicate IsIntText(s: string) {
    |s| > 0 && (s[0] == '-' ==> AllDigits(s[1..])) && (s[0] != '-' ==> AllDigits(s))
  }

  /** A reading of the wire form: the command a tuner would take a line to be. */
  function Decode(s: string): Option<Command> {
    if |s| == 0 then None
    else if s[0] == 'T' && IsIntText(s[1..]) then Some(Tune(ParseInt(s[1..])))
    else if s[0] == 'Z' && IsIntText(s[1..]) then Some(Antenna(ParseInt(s[1..])))
    else if s[0] == 'G' && |s| == 3 && (s[1] == '0' || s[1] == '1') && (s[2] == '0' || s[2] == '1')
    then Some(EqIms(s[1] == '1', s[2] == '1'))
    else None
  }

  /** Every command is read back as itself. */
  lemma DecodeEncode(c: Command)
    ensures Decode(Encode(c)) == Some(c)
  {
    match c
    case Tune(kHz) => IntToStringRoundTrip(kHz);
    case Antenna(index) => IntToStringRoundTrip(index);
    case EqIms(_, _) =>
  }

  /** Different commands are different lines on the wire. */
  lemma EncodeInjective(a: Command, b: Command)
    requires Encode(a) == Encode(b)
    ensures a == b
  {
    DecodeEncode(a);
    DecodeEncode(b);
  }

  /** `extraBufferCapacity = 64` of the command flow. */
  const COMMAND_BUFFER_CAPACITY: nat := 64

  /** The last (at most) `n` elements of `s`. */
  function Newest(s: seq<string>, n: nat): (r: seq<string>)
    ensures |r| == Min(n, |s|) && r == s[|s| - |r|..]
  {
    s[|s| - Min(n, |s|)..]
  }

  /**
   * `tryEmit` into the buffer while a collector runs: the command is appended,
   * and when the buffer is full its oldest entry is dropped.
   */
  function Enqueue(buffer: seq<string>, command: string): (r: seq<string>)
    requires |buffer| <= COMMAND_BUFFER_CAPACITY
    ensures r == Newest(buffer + [command], COMMAND_BUFFER_CAPACITY)
    ensures 0 < |r| <= COMMAND_BUFFER_CAPACITY && r[|r| - 1] == command
  {
    if |buffer| < COMMAND_BUFFER_CAPACITY then buffer + [command] else buffer[1..] + [command]
  }

  /** A run of `sendCommand` calls, oldest first. */
  function EnqueueAll(buffer: seq<string>, commands: seq<string>): (r: seq<string>)
    requires |buffer| <= COMMAND_BUFFER_CAPACITY
    ensures |r| <= COMMAND_BUFFER_CAPACITY
    decreases |commands|
  {
    if commands == [] then buffer else EnqueueAll(Enqueue(buffer, commands[0]), commands[1..])
  }

  /** Keeping the newest `n` of a sequence and then of an extension is keeping the newest `n` of the whole. */
  lemma NewestOfExtension(a: seq<string>, b: seq<string>, n: nat)
    ensures Newest(Newest(a, n) + b, n) == Newest(a + b, n)
  {
    var left, right := Newest(Newest(a, n) + b, n), Newest(a + b, n);
    assert |left| == |right|;
    forall i | 0 <= i < |left| ensures left[i] == right[i] {
      var k := |a + b| - |right| + i;
      if k >= |a| {
        assert right[i] == b[k - |a|];
        assert left[i] == (Newest(a, n) + b)[|Newest(a, n) + b| - |left| + i];
      } else {
        assert right[i] == a[k];
      }
    }
  }

  /** Sending one command and then `rest` keeps the newest of the buffer, the command and `rest`. */
  lemma EnqueueThenExtend(buffer: seq<string>, command: string, rest: seq<string>)
    requires |buffer| <= COMMAND_BUFFER_CAPACITY
    ensures Newest(Enqueue(buffer, command) + rest, COMMAND_BUFFER_CAPACITY)
      == Newest(buffer + ([command] + rest), COMMAND_BUFFER_CAPACITY)
  {
    NewestOfExtension(buffer + [command], rest, COMMAND_BUFFER_CAPACITY);
    assert buffer + [command] + rest == buffer + ([command] + rest);
  }

  /** Sending one more command after a kept prefix keeps the newest of the prefix extended by it. */
  lemma EnqueueNewest(buffer: seq<string>, prefix: seq<string>, command: string)
    ensures Enqueue(Newest(buffer + prefix, COMMAND_BUFFER_CAPACITY), command)
      == Newest(buffer + (prefix + [command]), COMMAND_BUFFER_CAPACITY)
  {
    NewestOfExtension(buffer + prefix, [command], COMMAND_BUFFER_CAPACITY);
    assert buffer + prefix + [command] == buffer + (prefix + [command]);
  }

  /**
   * After any run of sends the buffer holds the newest 64 of everything it held
   * and was sent, in the order they were sent: the newest is last and no
   * command overtakes another.
   */
  lemma {:induction false} EnqueueAllKeepsNewest(buffer: seq<string>, commands: seq<string>)
    requires |buffer| <= COMMAND_BUFFER_CAPACITY
    ensures EnqueueAll(buffer, commands) == Newest(buffer + commands, COMMAND_BUFFER_CAPACITY)
    decreases |commands|
  {
    if commands == [] {
      assert buffer + commands == buffer;
    } else {
      var next := Enqueue(buffer, commands[0]);
      EnqueueAllKeepsNewest(next, commands[1..]);
      EnqueueThenExtend(buffer, commands[0], commands[1..]);
      assert [commands[0]] + commands[1..] == commands;
    }
  }
}
