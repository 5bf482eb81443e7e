/** The telemetry decoder of rover-communication.js (`onmessage` and
    `handleServerResponse`): keys O (ultrasonic distance), N and P (left and
    right infrared readings) of an inbound frame update the matching display
    field; every other key is ignored and a frame that cannot be handled
    leaves the display as it was. */
module Telemetry {
  import opened Common

  /** A value found under a key: a JSON number, or anything else (string,
      boolean, null, array, object). The decoder treats all of the latter
      alike: `toFixed` throws on each of them under O, and under N and P
      each is written to the page as it came. */
  datatype Value = Number(n: real) | NonNumber

  /** What `JSON.parse` produced: `null`, an object with the three keys the
      decoder reads (absent keys are `None`), or any other JSON value. */
  datatype Json = Null | Object(O: Option<Value>, N: Option<Value>, P: Option<Value>) | OtherJson

  /** An inbound text frame: not valid JSON, or parsed. */
  datatype Inbound = Unparsable | Parsed(data: Json)

  /** The three sensor readouts. The distance is kept in tenths of a
      centimetre, as `toFixed(1)` renders it. */
  datatype Display = Display(ultrasonicTenths: Option<int>, leftIR: Option<Value>, rightIR: Option<Value>)

  /** `Number.prototype.toFixed(1)` as a count of tenths: the nearest tenth,
      ties rounded away from zero (the magnitude is rounded, then signed). */
  function ToFixed1(x: real): (tenths: int)
    ensures AbsReal(tenths as real - 10.0 * x) <= 0.5
    // a tie goes up for a non-negative x and down for a negative one
    ensures x >= 0.0 ==> tenths as real <= 10.0 * x + 0.5 < tenths as real + 1.0
    ensures x < 0.0 ==> -tenths as real <= -10.0 * x + 0.5 < -tenths as real + 1.0
    ensures x >= 0.0 ==> tenths >= 0
    ensures x <= 0.0 ==> tenths <= 0
  {
    if x >= 0.0 then (10.0 * x + 0.5).Floor else -((-10.0 * x + 0.5).Floor)
  }

  /** The result of `handleServerResponse`: the new display, or a thrown
      TypeError (from `null.hasOwnProperty` or `toFixed` on a non-number). */
  datatype Handled = Completed(display: Display) | Failed

  /** `handleServerResponse`: O first, then N, then P. A non-numeric O throws
      before anything is written, so N and P are not applied either. */
  function HandleServerResponse(d: Display, data: Json): (h: Handled)
    ensures data.Null? ==> h.Failed?
    ensures data.OtherJson? ==> h == Completed(d)
    ensures data.Object? ==> (h.Failed? <==> data.O == Some(NonNumber))
    ensures h.Completed? && data.Object? ==>
      h.display.ultrasonicTenths == (if data.O.Some? then Some(ToFixed1(data.O.value.n)) else d.ultrasonicTenths)
      && h.display.leftIR == (if data.N.Some? then data.N else d.leftIR)
      && h.display.rightIR == (if data.P.Some? then data.P else d.rightIR)
  {
    match data
    case Null => Failed
    case OtherJson => Completed(d)
    case Object(o, n, p) =>
      if o == Some(NonNumber) then Failed
      else
        var d1 := if o.Some? then d.(ultrasonicTenths := Some(ToFixed1(o.value.n))) else d;
        var d2 := if n.Some? then d1.(leftIR := n) else d1;
        var d3 := if p.Some? then d2.(rightIR := p) else d2;
        Completed(d3)
  }

  /** `websocket.onmessage`: parse, handle, and swallow any exception. */
  function OnMessage(d: Display, frame: Inbound): (r: Display)
    // a malformed frame or one the handler throws on changes nothing
    ensures frame.Unparsable? || HandleServerResponse(d, frame.data).Failed? ==> r == d
    // a frame the handler completes on gives its display
    ensures frame.Parsed? && HandleServerResponse(d, frame.data).Completed? ==>
              r == HandleServerResponse(d, frame.data).display
    // otherwise each readout either keeps its value or takes the frame's
    ensures r.ultrasonicTenths == d.ultrasonicTenths
         || (frame.Parsed? && frame.data.Object? && frame.data.O.Some? && frame.data.O.value.Number?
             && r.ultrasonicTenths == Some(ToFixed1(frame.data.O.value.n)))
    ensures r.leftIR == d.leftIR || (frame.Parsed? && frame.data.Object? && frame.data.N.Some? && r.leftIR == frame.data.N)
    ensures r.rightIR == d.rightIR || (frame.Parsed? && frame.data.Object? && frame.data.P.Some? && r.rightIR == frame.data.P)
  {
    match frame
    case Unparsable => d
    case Parsed(data) =>
      match HandleServerResponse(d, data)
      case Completed(d') => d'
      case Failed => d
  }

  /** Applying the same frame twice is the same as applying it once. */
  lemma OnMessageIdempotent(d: Display, frame: Inbound)
    ensures OnMessage(OnMessage(d, frame), frame) == OnMessage(d, frame)
  {
  }

  /** Scenario: `{"O":42.58,"N":0,"P":0,"BV":7.58}` shows 42.6 cm and two
      zero infrared readings; BV is not displayed. */
  lemma SampleFrame(d: Display)
    ensures OnMessage(d, Parsed(Object(Some(Number(42.58)), Some(Number(0.0)), Some(Number(0.0)))))
            == Display(Some(426), Some(Number(0.0)), Some(Number(0.0)))
  {
  }
}
