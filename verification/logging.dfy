/** Webhook logging: the tick counter that decides when to flush, and the
    request a flush sends. */
module WebhookLogging {
  import opened BeaconRecords
  import opened BeaconStore

  const INT_MIN: int := -0x8000_0000
  const INT_MAX: int := 0x7FFF_FFFF

  /** A JVM `Int`. */
  type int32 = x: int | -0x8000_0000 <= x <= 0x7FFF_FFFF

  /** `++x` on a JVM `Int`, wrapping at the top of the range. */
  function Inc32(x: int32): int32 {
    if x == INT_MAX then INT_MIN else x + 1
  }

  /** The counter after one ranging event, and whether that event flushes. */
  datatype Tick = Tick(counter: int32, flush: bool)

  /** One evaluation of the logging condition: the counter is incremented only
      when logging is enabled and an endpoint is set, a flush happens when the
      incremented counter equals the frequency, and a flush resets it to 0. */
  function Cadence(counter: int32, enabled: bool, endpointSet: bool, frequency: int32): Tick {
    if enabled && endpointSet then
      var incremented := Inc32(counter);
      if incremented == frequency then Tick(0, true) else Tick(incremented, false)
    else
      Tick(counter, false)
  }

  /** The increment is `x + 1` modulo 2^32, in the signed range, and the
      plain successor below the top. */
  lemma Inc32Wraps(x: int32)
    ensures (Inc32(x) - (x + 1)) % 0x1_0000_0000 == 0
    ensures x < INT_MAX ==> Inc32(x) == x + 1
  {
  }

  /** A flush happens only while logging is enabled with an endpoint, exactly
      when the incremented counter reaches the frequency, and leaves 0; a tick
      that does not flush leaves the counter incremented, or untouched while
      logging is off. */
  lemma CadenceDecides(counter: int32, enabled: bool, endpointSet: bool, frequency: int32)
    ensures var t := Cadence(counter, enabled, endpointSet, frequency);
      && (t.flush ==> enabled && endpointSet && t.counter == 0)
      && (enabled && endpointSet ==> (t.flush <==> Inc32(counter) == frequency))
      && (!t.flush ==> t.counter == (if enabled && endpointSet then Inc32(counter) else counter))
  {
  }

  /** The counter and the number of flushes after `n` ranging events with
      logging enabled and an endpoint set. */
  function Ticks(counter: int32, n: nat, frequency: int32): (int32, nat) {
    if n == 0 then (counter, 0)
    else
      var (c, flushes) := Ticks(counter, n - 1, frequency);
      var t := Cadence(c, true, true, frequency);
      (t.counter, flushes + if t.flush then 1 else 0)
  }

  /** With logging off, or no endpoint, the counter does not move and nothing
      is flushed. */
  lemma DisabledNeverCounts(counter: int32, enabled: bool, endpointSet: bool, frequency: int32)
    requires !enabled || !endpointSet
    ensures Cadence(counter, enabled, endpointSet, frequency) == Tick(counter, false)
  {
  }

  /** Starting from 0, the ranging events that flush are exactly every
      frequency-th one: after q * frequency + r events (r < frequency) the
      counter is r and q flushes have happened. */
  lemma {:induction false} PeriodicFlush(q: nat, r: nat, frequency: int32)
    requires 0 <= r < frequency
    ensures Ticks(0, q * frequency + r, frequency) == (r as int32, q)
    decreases q, r
  {
    var n := q * frequency + r;
    if r > 0 {
      PeriodicFlush(q, r - 1, frequency);
      assert n - 1 == q * frequency + (r - 1);
    } else if q > 0 {
      PeriodicFlush(q - 1, frequency - 1, frequency);
      assert n - 1 == (q - 1) * frequency + (frequency - 1);
    }
  }

  /** Ticks 1 to 4 with frequency 5 do not flush; tick 5 flushes once and
      leaves the counter at 0. */
  lemma FrequencyFiveScenario()
    ensures forall n :: 1 <= n <= 4 ==> Ticks(0, n, 5) == (n as int32, 0)
    ensures Ticks(0, 5, 5) == (0, 1)
  {
    forall n | 1 <= n <= 4 ensures Ticks(0, n, 5) == (n as int32, 0) {
      PeriodicFlush(0, n, 5);
    }
    PeriodicFlush(1, 0, 5);
  }

  /** When the counter is already at or past the frequency (the frequency was
      lowered while counting), no flush happens until the counter wraps. */
  lemma {:induction false} CounterPastFrequencyStalls(counter: int32, n: nat, frequency: int32)
    requires frequency <= counter && n <= INT_MAX - counter
    ensures Ticks(counter, n, frequency) == ((counter + n) as int32, 0)
  {
    if n > 0 {
      CounterPastFrequencyStalls(counter, n - 1, frequency);
    }
  }

  /** The body of a webhook POST: the device label and a copy of the records. */
  datatype LoggingRequest = LoggingRequest(deviceName: string, beacons: Store)

  /** The device label of the request; an unset name is sent as "". */
  function DeviceLabel(name: Option<string>): (shown: string)
    ensures name == Some(shown) || (name == None && shown == "")
  {
    match name
    case Some(n) => n
    case None => ""
  }
}
