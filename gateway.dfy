/**
 * The trigger gateway (port_open_send.py): a fixed table from logical channel
 * names to short control strings, and `sendTrigger`, which writes the channel's
 * code twice, then the zero marker twice, to the serial device. Unknown channels
 * and transport faults are absorbed: nothing ever propagates to the caller.
 */
module TriggerGateway {
  import opened Wrappers

  type Byte = b: int | 0 <= b < 256

  /** `bytes(s, encoding='utf-8')`. */
  function EncodeChar(c: char): (r: seq<Byte>)
    ensures 1 <= |r| <= 4
    ensures (c as int < 0x80) <==> |r| == 1
  {
    var n := c as int;
    if n < 0x80 then [n]
    else if n < 0x800 then [0xC0 + n / 0x40, 0x80 + n % 0x40]
    else if n < 0x10000 then [0xE0 + n / 0x1000, 0x80 + (n / 0x40) % 0x40, 0x80 + n % 0x40]
    else [0xF0 + n / 0x40000, 0x80 + (n / 0x1000) % 0x40, 0x80 + (n / 0x40) % 0x40, 0x80 + n % 0x40]
  }

  function Utf8(s: string): seq<Byte>
  {
    if s == [] then [] else EncodeChar(s[0]) + Utf8(s[1..])
  }

  predicate IsAscii(s: string) { forall i :: 0 <= i < |s| ==> s[i] as int < 0x80 }

  /** An ASCII string is written byte for byte: one byte per character, equal to its code. */
  lemma {:induction false} Utf8OfAscii(s: string)
    requires IsAscii(s)
    ensures |Utf8(s)| == |s|
    ensures forall i :: 0 <= i < |s| ==> Utf8(s)[i] == s[i] as int
  {
    if s != [] {
      Utf8OfAscii(s[1..]);
    }
  }

  /** The channel table of `sendTrigger`. */
  const Mapping: map<string, string> := map[
    "ch160" := "mh\U{1}",
    "ch161" := "mh\U{2}",
    "ch162" := "mh\U{4}",
    "ch163" := "mh\U{8}",
    "ch164" := "mh\U{10}",
    "ch165" := "mh 0",
    "ch166" := "mh@0"
  ]

  /** The default reset signal and pulse duration (seconds) of `sendTrigger`. */
  const DefaultZeroMarker: string := "mh\U{0}"
  const DefaultDuration: real := 0.01

  /** The channels are exactly ch160..ch166. */
  lemma MappingShape()
    ensures Mapping.Keys == {"ch160", "ch161", "ch162", "ch163", "ch164", "ch165", "ch166"}
    ensures |Mapping| == 7
  {
    assert Mapping.Keys == {"ch160", "ch161", "ch162", "ch163", "ch164", "ch165", "ch166"};
  }

  /** Which channel a code belongs to, read off its third character. */
  function ChannelOfCode(code: string): string
  {
    if |code| < 3 then ""
    else if code[2] == '\U{1}' then "ch160"
    else if code[2] == '\U{2}' then "ch161"
    else if code[2] == '\U{4}' then "ch162"
    else if code[2] == '\U{8}' then "ch163"
    else if code[2] == '\U{10}' then "ch164"
    else if code[2] == ' ' then "ch165"
    else if code[2] == '@' then "ch166"
    else ""
  }

  /** No two channels share a code: each code names its channel. */
  lemma MappingInjective()
    ensures forall a, b :: a in Mapping && b in Mapping && a != b ==> Mapping[a] != Mapping[b]
  {
    MappingShape();
    forall a | a in Mapping
      ensures ChannelOfCode(Mapping[a]) == a
    {
      assert a in Mapping.Keys;
      if a == "ch160" { assert Mapping[a][2] == '\U{1}'; }
      else if a == "ch161" { assert Mapping[a][2] == '\U{2}'; }
      else if a == "ch162" { assert Mapping[a][2] == '\U{4}'; }
      else if a == "ch163" { assert Mapping[a][2] == '\U{8}'; }
      else if a == "ch164" { assert Mapping[a][2] == '\U{10}'; }
      else if a == "ch165" { assert Mapping[a][2] == ' '; }
      else { assert Mapping[a][2] == '@'; }
    }
  }

  /** The channels whose codes set one bit each: ch160 .. ch164. */
  const OneHotChannels: seq<string> := ["ch160", "ch161", "ch162", "ch163", "ch164"]

  /** Channel ch16k, for k < 5, puts 'mh' and then a byte with exactly bit k set on the wire. */
  lemma OneHotCodes(k: nat)
    requires k < 5
    ensures OneHotChannels[k] in Mapping
    ensures Utf8(Mapping[OneHotChannels[k]]) == [0x6D, 0x68, Pow2(k)]
  {
    LowWireCodes();
    HighWireCodes();
    if k == 0 { assert OneHotChannels[k] == "ch160" && Pow2(k) == 1; }
    else if k == 1 { assert OneHotChannels[k] == "ch161" && Pow2(k) == 2; }
    else if k == 2 { assert OneHotChannels[k] == "ch162" && Pow2(k) == 4; }
    else if k == 3 { assert OneHotChannels[k] == "ch163" && Pow2(k) == 8; }
    else { assert OneHotChannels[k] == "ch164" && Pow2(k) == 16; }
  }

  /** The codes of ch160 .. ch162 on the wire. */
  lemma LowWireCodes()
    ensures "ch160" in Mapping && Utf8(Mapping["ch160"]) == [0x6D, 0x68, 1]
    ensures "ch161" in Mapping && Utf8(Mapping["ch161"]) == [0x6D, 0x68, 2]
    ensures "ch162" in Mapping && Utf8(Mapping["ch162"]) == [0x6D, 0x68, 4]
  {
    assert Utf8("mh\U{1}") == [0x6D, 0x68, 1] by { Utf8OfAscii("mh\U{1}"); }
    assert Utf8("mh\U{2}") == [0x6D, 0x68, 2] by { Utf8OfAscii("mh\U{2}"); }
    assert Utf8("mh\U{4}") == [0x6D, 0x68, 4] by { Utf8OfAscii("mh\U{4}"); }
  }

  /** The codes of ch163 and ch164 on the wire. */
  lemma HighWireCodes()
    ensures "ch163" in Mapping && Utf8(Mapping["ch163"]) == [0x6D, 0x68, 8]
    ensures "ch164" in Mapping && Utf8(Mapping["ch164"]) == [0x6D, 0x68, 16]
  {
    assert Utf8("mh\U{8}") == [0x6D, 0x68, 8] by { Utf8OfAscii("mh\U{8}"); }
    assert Utf8("mh\U{10}") == [0x6D, 0x68, 16] by { Utf8OfAscii("mh\U{10}"); }
  }

  /** 2^k, the byte of the k-th one-hot channel. */
  function Pow2(k: nat): nat
  {
    if k == 0 then 1 else 2 * Pow2(k - 1)
  }

  /**
   * The byte strings a call reaches, in order: code, code, zero marker, zero
   * marker. `time.sleep` refuses a negative duration by raising, so then the
   * call stops after the two codes.
   */
  function Plan(channel: string, duration: real, zeroMarker: string): (p: seq<seq<Byte>>)
    ensures channel !in Mapping <==> p == []
    ensures channel in Mapping ==> |p| == if duration < 0.0 then 2 else 4
  {
    if channel !in Mapping then []
    else
      var code := Utf8(Mapping[channel]);
      var zero := Utf8(zeroMarker);
      if duration < 0.0 then [code, code] else [code, code, zero, zero]
  }

  /** The part of `plan` a transport accepts when it faults after `accepts` more writes (None: never). */
  function Accepted(plan: seq<seq<Byte>>, accepts: Option<nat>): (r: seq<seq<Byte>>)
    ensures r <= plan
    ensures accepts.None? ==> r == plan
    ensures accepts.Some? ==> |r| == if accepts.value < |plan| then accepts.value else |plan|
  {
    if accepts.None? || accepts.value >= |plan| then plan else plan[..accepts.value]
  }

  /** What `sendTrigger` reported on the console. */
  datatype TriggerOutcome =
    | InvalidChannel  // "Invalid channel: ..."
    | Sent            // no error
    | TransportFault  // a write raised: "Trigger send error: ..."
    | SleepFault      // `time.sleep` raised on a negative duration: "Trigger send error: ..."

  /**
   * A recording stand-in for the serial device: it keeps every byte string it
   * accepted, and raises on a write once `accepts` reaches Some(0) (a port that
   * never opened raises on the first write).
   */
  class SerialPort {
    var written: seq<seq<Byte>>
    var accepts: Option<nat>

    constructor (accepts: Option<nat>)
      ensures written == [] && this.accepts == accepts
    {
      written := [];
      this.accepts := accepts;
    }

    /** `ser.write(data)`: returns true when the transport raised. */
    method Write(data: seq<Byte>) returns (raised: bool)
      modifies this
      ensures raised <==> old(accepts) == Some(0)
      ensures written == if raised then old(written) else old(written) + [data]
      ensures accepts == if old(accepts).Some? && !raised then Some(old(accepts).value - 1) else old(accepts)
    {
      raised := accepts == Some(0);
      if !raised {
        written := written + [data];
        if accepts.Some? {
          accepts := Some(accepts.value - 1);
        }
      }
    }
  }

  /**
   * `sendTrigger(channel, duration, zero_marker)`. The pause itself is
   * wall-clock time and is not modelled; only its refusal of a negative
   * duration is. Every error inside the `try` is caught and reported.
   */
  method SendTrigger(port: SerialPort, channel: string, duration: real, zeroMarker: string)
    returns (outcome: TriggerOutcome)
    modifies port
    ensures port.written == old(port.written) + Accepted(Plan(channel, duration, zeroMarker), old(port.accepts))
    ensures port.accepts == if old(port.accepts).None? then None
                            else Some(old(port.accepts).value - |Accepted(Plan(channel, duration, zeroMarker), old(port.accepts))|)
    ensures outcome == InvalidChannel <==> channel !in Mapping
    ensures outcome == TransportFault <==>
      channel in Mapping && old(port.accepts).Some? && old(port.accepts).value < |Plan(channel, duration, zeroMarker)|
    ensures outcome == SleepFault <==>
      channel in Mapping && duration < 0.0 && !(old(port.accepts).Some? && old(port.accepts).value < 2)
  {
    if channel !in Mapping {
      return InvalidChannel;
    }
    var data := Utf8(Mapping[channel]);
    var zero := Utf8(zeroMarker);
    ghost var plan := Plan(channel, duration, zeroMarker);
    ghost var before := port.written;
    ghost var acc := port.accepts;
    var raised := WriteTwice(port, data);
    assert port.written == before + Accepted(plan[..2], acc);
    if !raised && duration < 0.0 {
      outcome := SleepFault;
    } else {
      if !raised {
        ghost var mid := port.written;
        assert plan == plan[..2] + [zero, zero];
        raised := WriteTwice(port, zero);
        assert port.written == mid + Accepted([zero, zero], if acc.None? then None else Some(acc.value - 2));
      }
      outcome := if raised then TransportFault else Sent;
    }
  }

  /** Two writes of the same bytes, the second skipped when the first raises: how the code and the reset are each sent. */
  method WriteTwice(port: SerialPort, data: seq<Byte>) returns (raised: bool)
    modifies port
    ensures port.written == old(port.written) + Accepted([data, data], old(port.accepts))
    ensures port.accepts == if old(port.accepts).None? then None
                            else Some(old(port.accepts).value - |Accepted([data, data], old(port.accepts))|)
    ensures raised <==> old(port.accepts).Some? && old(port.accepts).value < 2
  {
    raised := port.Write(data);
    if !raised {
      raised := port.Write(data);
    }
  }

  /** A channel outside the table causes no write at all. */
  lemma UnknownChannelWritesNothing(channel: string, duration: real, zeroMarker: string, accepts: Option<nat>)
    requires channel !in Mapping
    ensures Accepted(Plan(channel, duration, zeroMarker), accepts) == []
  {
  }

  /**
   * A known channel on a healthy port writes exactly code, code, zero, zero
   * when the pause is non-negative, and only code, code when `time.sleep`
   * refuses it.
   */
  lemma KnownChannelWrites(channel: string, duration: real, zeroMarker: string)
    requires channel in Mapping
    ensures var code := Utf8(Mapping[channel]); var zero := Utf8(zeroMarker);
      Accepted(Plan(channel, duration, zeroMarker), None) ==
        if duration < 0.0 then [code, code] else [code, code, zero, zero]
  {
  }

  /** When a write fails, the writes after it are skipped: what reached the device is a strict prefix. */
  lemma FaultSkipsRest(channel: string, duration: real, zeroMarker: string, k: nat)
    requires channel in Mapping && k < |Plan(channel, duration, zeroMarker)|
    ensures Accepted(Plan(channel, duration, zeroMarker), Some(k)) == Plan(channel, duration, zeroMarker)[..k]
    ensures |Accepted(Plan(channel, duration, zeroMarker), Some(k))| < |Plan(channel, duration, zeroMarker)|
  {
  }
}
