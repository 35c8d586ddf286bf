/** A `text/event-stream` reader and the typed stream on top of it, after
    `internal/ssestream/ssestream.go`.

    The response body arrives as the sequence of lines a line scanner has split it into,
    with a possible read error standing after the last of them. JSON decoding and the
    probe for a top-level `error` field are functions given to the stream. */
module SseStream {
  import opened Wrappers
  import opened GoStrings

  // ---------------------------------------------------------------------------------
  // Lines and records.

  /** One dispatched record: its `event` type and its accumulated `data`. */
  datatype Event = Event(typ: string, data: string)

  /** What a record holds before any of its lines has been read. */
  const NoEvent := Event("", "")

  /** `bytes.Cut(line, ":")`: the text before the first colon and the text after it; with
      no colon, the whole line and nothing. */
  function Cut(line: string): (r: (string, string))
    ensures ':' !in r.0
    ensures ':' in line ==> line == r.0 + [':'] + r.1
    ensures ':' !in line ==> r == (line, "")
  {
    if line == [] then ("", "")
    else if line[0] == ':' then ("", line[1..])
    else
      var (name, value) := Cut(line[1..]);
      assert line == [line[0]] + line[1..];
      ([line[0]] + name, value)
  }

  /** The value of a field with one leading space, if there is one, consumed. */
  function DropSpace(value: string): string {
    if |value| > 0 && value[0] == ' ' then value[1..] else value
  }

  /** The effect of one non-blank line on the record being built: a comment (empty field
      name) and any field other than `event` and `data` change nothing; `event` replaces
      the type; `data` appends its value and a line feed. */
  function ApplyLine(acc: Event, line: string): Event {
    var (name, value) := Cut(line);
    var v := DropSpace(value);
    if name == "event" then acc.(typ := v)
    else if name == "data" then acc.(data := acc.data + v + "\n")
    else acc
  }

  /** The record built from `lines[lo..hi]`, read in order from an empty one. */
  function Fold(lines: seq<string>, lo: nat, hi: nat): Event
    requires lo <= hi <= |lines|
    decreases hi
  {
    if hi == lo then NoEvent else ApplyLine(Fold(lines, lo, hi - 1), lines[hi - 1])
  }

  /** The record depends only on the lines it is built from. */
  lemma {:induction false} FoldSameLines(a: seq<string>, b: seq<string>, lo: nat, hi: nat)
    requires lo <= hi <= |a| && hi <= |b|
    requires forall i :: lo <= i < hi ==> a[i] == b[i]
    ensures Fold(a, lo, hi) == Fold(b, lo, hi)
    decreases hi - lo
  {
    if lo < hi {
      FoldSameLines(a, b, lo, hi - 1);
    }
  }

  /** The first blank line at or after `from`, or `|lines|` when there is none. */
  function FirstBlank(lines: seq<string>, from: nat): (b: nat)
    requires from <= |lines|
    ensures from <= b <= |lines|
    ensures b < |lines| ==> lines[b] == ""
    ensures forall i :: from <= i < b ==> lines[i] != ""
    decreases |lines| - from
  {
    if from == |lines| || lines[from] == "" then from else FirstBlank(lines, from + 1)
  }

  /** The records a reader dispatches from line `from` on, one per blank line; the lines
      after the last blank line form no record. */
  function Records(lines: seq<string>, from: nat): (r: seq<Event>)
    requires from <= |lines|
    ensures FirstBlank(lines, from) == |lines| <==> r == []
    decreases |lines| - from
  {
    var b := FirstBlank(lines, from);
    if b == |lines| then [] else [Fold(lines, from, b)] + Records(lines, b + 1)
  }

  // ---------------------------------------------------------------------------------
  // Facts about single lines.

  /** A line is split at its first colon only: later colons stay in the value. */
  lemma {:induction false} CutAtFirstColon(name: string, rest: string)
    requires ':' !in name
    ensures Cut(name + [':'] + rest) == (name, rest)
  {
    if name == [] {
      assert name + [':'] + rest == [':'] + rest;
    } else {
      var line := name + [':'] + rest;
      assert line[0] == name[0] && line[0] != ':';
      assert line[1..] == name[1..] + [':'] + rest;
      CutAtFirstColon(name[1..], rest);
      assert [name[0]] + name[1..] == name;
    }
  }

  /** A comment line leaves the record as it is. */
  lemma {:induction false} CommentIgnored(acc: Event, text: string)
    ensures ApplyLine(acc, [':'] + text) == acc
  {
    CutAtFirstColon("", text);
    assert "" + [':'] + text == [':'] + text;
  }

  /** `event: v` replaces the type by `v` and leaves the data alone. */
  lemma {:induction false} EventLineSetsType(acc: Event, v: string)
    ensures ApplyLine(acc, "event: " + v) == Event(v, acc.data)
  {
    CutAtFirstColon("event", " " + v);
    assert "event" + [':'] + (" " + v) == "event: " + v;
  }

  /** `data: v` appends `v` and a line feed; a second space after the colon is kept. */
  lemma {:induction false} DataLineAppends(acc: Event, v: string)
    ensures ApplyLine(acc, "data: " + v) == Event(acc.typ, acc.data + v + "\n")
  {
    CutAtFirstColon("data", " " + v);
    assert "data" + [':'] + (" " + v) == "data: " + v;
  }

  /** `id` and `retry` lines, and lines of unknown fields, change nothing. */
  lemma {:induction false} OtherFieldIgnored(acc: Event, name: string, v: string)
    requires ':' !in name && name != "event" && name != "data"
    ensures ApplyLine(acc, name + [':'] + v) == acc
  {
    CutAtFirstColon(name, v);
  }

  /** A line without a colon is a field with an empty value. */
  lemma {:induction false} BareFieldName(acc: Event, name: string)
    requires ':' !in name
    ensures name == "data" ==> ApplyLine(acc, name) == Event(acc.typ, acc.data + "\n")
    ensures name == "event" ==> ApplyLine(acc, name) == Event("", acc.data)
  {
  }

  function DataLines(values: seq<string>): (r: seq<string>)
    ensures |r| == |values|
    ensures forall i :: 0 <= i < |r| ==> r[i] == "data: " + values[i]
  {
    if values == [] then [] else DataLines(values[..|values| - 1]) + ["data: " + values[|values| - 1]]
  }

  /** Each value followed by a line feed, in order. */
  function Terminated(values: seq<string>): string {
    if values == [] then "" else Terminated(values[..|values| - 1]) + values[|values| - 1] + "\n"
  }

  /** k `data` lines give the concatenation of their values, each with its line feed, and
      no type. */
  lemma {:induction false} DataLinesConcatenate(values: seq<string>)
    ensures Fold(DataLines(values), 0, |values|) == Event("", Terminated(values))
  {
    if values != [] {
      var n := |values|;
      var ls, front := DataLines(values), DataLines(values[..n - 1]);
      DataLinesConcatenate(values[..n - 1]);
      FoldSameLines(ls, front, 0, n - 1);
      DataLineAppends(Fold(front, 0, n - 1), values[n - 1]);
    }
  }

  /** Of several `event` lines the last one wins. */
  lemma {:induction false} LastEventLineWins(a: string, b: string)
    ensures Fold(["event: " + a, "event: " + b], 0, 2) == Event(b, "")
  {
    var ls := ["event: " + a, "event: " + b];
    EventLineSetsType(NoEvent, a);
    assert Fold(ls, 0, 1) == ApplyLine(NoEvent, "event: " + a) == Event(a, "");
    EventLineSetsType(Event(a, ""), b);
    assert Fold(ls, 0, 2) == ApplyLine(Fold(ls, 0, 1), "event: " + b);
  }

  /** A blank line right after the previous record dispatches an empty record. */
  lemma {:induction false} BlankLineDispatchesEmpty(lines: seq<string>, from: nat)
    requires from < |lines| && lines[from] == ""
    ensures Records(lines, from) == [NoEvent] + Records(lines, from + 1)
  {
    assert FirstBlank(lines, from) == from;
  }

  /** Lines with no blank line after them form no record: at the end of the input a
      partial record is dropped. */
  lemma {:induction false} PartialRecordDropped(lines: seq<string>, from: nat)
    requires from <= |lines| && forall i :: from <= i < |lines| ==> lines[i] != ""
    ensures Records(lines, from) == []
  {
    FirstBlankIs(lines, from, |lines|);
  }

  /** The first blank line is the one with only non-blank lines before it. */
  lemma {:induction false} FirstBlankIs(lines: seq<string>, from: nat, b: nat)
    requires from <= b <= |lines|
    requires b < |lines| ==> lines[b] == ""
    requires forall i :: from <= i < b ==> lines[i] != ""
    ensures FirstBlank(lines, from) == b
  {
  }

  // ---------------------------------------------------------------------------------
  // The decoder.

  /** `eventStreamDecoder`: the scanner's lines with a cursor, the last record dispatched,
      and the error seen so far. `rest` names the records still to be dispatched. */
  class EventStreamDecoder {
    const lines: seq<string>
    /** The scanner's error once the lines run out, if reading failed. */
    const readErr: Option<string>
    var pos: nat
    var evt: Event
    var err: Option<string>
    var closed: bool
    ghost var rest: seq<Event>

    ghost predicate Valid()
      reads this
    {
      pos <= |lines| && rest == Records(lines, pos)
      && (err.Some? ==> err == readErr && pos == |lines| && rest == [])
    }

    constructor(lines: seq<string>, readErr: Option<string>)
      ensures Valid()
      ensures this.lines == lines && this.readErr == readErr
      ensures pos == 0 && evt == NoEvent && err == None && !closed
      ensures rest == Records(lines, 0)
    {
      this.lines := lines;
      this.readErr := readErr;
      pos := 0;
      evt := NoEvent;
      err := None;
      closed := false;
      rest := Records(lines, 0);
    }

    /** Reads up to the next blank line and dispatches the record built from the lines
        before it, starting from an empty record. At the end of the lines the unfinished
        record is dropped, the read error (if any) is kept, and the answer is false.
        Once an error is kept, nothing more is read. In terms of the records: the answer
        is true exactly when one is left, and then the first of them, the one built from
        the lines before the next blank line, is dispatched. */
    method Next() returns (ok: bool)
      requires Valid()
      modifies this
      ensures Valid()
      ensures closed == old(closed)
      ensures ok <==> old(rest) != []
      ensures ok ==> pos == FirstBlank(lines, old(pos)) + 1 && evt == old(rest)[0]
                     && rest == old(rest)[1..] && err == None
      ensures !ok ==> pos == |lines| && rest == [] && evt == old(evt) && err == readErr
    {
      ok := false;
      if err.Some? {
        return;
      }
      var b, e := ScanRecord(lines, pos);
      if b < |lines| {
        Advance(b, e);
        ok := true;
      } else {
        RunDry();
      }
    }

    /** Dispatches `e`, the record that ends at the blank line `b`. */
    method Advance(b: nat, e: Event)
      requires Valid() && err == None && b < |lines|
      requires Records(lines, pos) == [e] + Records(lines, b + 1)
      modifies this
      ensures Valid()
      ensures pos == b + 1 && evt == e && rest == old(rest)[1..]
      ensures err == None && closed == old(closed)
    {
      pos, evt, rest := b + 1, e, rest[1..];
    }

    /** The lines ran out before a blank line: the scanner's error, if any, is kept. */
    method RunDry()
      requires Valid() && err == None && FirstBlank(lines, pos) == |lines|
      modifies this
      ensures Valid()
      ensures pos == |lines| && rest == [] && err == readErr
      ensures evt == old(evt) && closed == old(closed)
    {
      pos, err, rest := |lines|, readErr, [];
    }

    /** The scanning loop of `Next`: reads lines from `from` on up to the first blank one,
        building the record from each line in turn; `b` is where it stopped (`|lines|`
        when the lines ran out) and `e` the record built so far. */
    static method ScanRecord(lines: seq<string>, from: nat) returns (b: nat, e: Event)
      requires from <= |lines|
      ensures b == FirstBlank(lines, from)
      ensures e == Fold(lines, from, b)
      ensures b < |lines| ==> Records(lines, from) == [e] + Records(lines, b + 1)
    {
      var event := "";
      var data := "";
      b := from;
      while b < |lines|
        invariant from <= b <= |lines|
        invariant forall i :: from <= i < b ==> lines[i] != ""
        invariant Event(event, data) == Fold(lines, from, b)
        decreases |lines| - b
      {
        var txt := lines[b];
        if |txt| == 0 {
          break;
        }
        event, data := ReadField(event, data, txt);
        b := b + 1;
      }
      FirstBlankIs(lines, from, b);
      e := Event(event, data);
    }

    /** One non-blank line of a record: the field name is what comes before the first
        colon, one space after the colon is dropped from the value, and only `event` and
        `data` count. */
    static method ReadField(event: string, data: string, txt: string)
      returns (event': string, data': string)
      ensures Event(event', data') == ApplyLine(Event(event, data), txt)
    {
      event', data' := event, data;
      var (name, value) := Cut(txt);
      if |value| > 0 && value[0] == ' ' {
        value := value[1..];
      }
      assert value == DropSpace(Cut(txt).1);
      if name == "" {
        return;
      } else if name == "event" {
        event' := value;
      } else if name == "data" {
        data' := data + value + "\n";
      }
    }

    /** The record last dispatched. */
    function Current(): Event
      reads this
    {
      evt
    }

    function Err(): Option<string>
      reads this
    {
      err
    }

    method Close()
      modifies this
      ensures closed
      ensures pos == old(pos) && evt == old(evt) && err == old(err) && rest == old(rest)
    {
      closed := true;
    }
  }

  // ---------------------------------------------------------------------------------
  // The typed stream.

  /** What is handed to the JSON decoder: the raw data, or for a `thread.` event the
      object `{ "event": type, "data": data }`. */
  datatype Payload = Raw(data: string) | Wrapped(event: string, data: string)

  datatype StreamError =
    | ReadFailed(message: string)     // the scanner's error, passed through
    | Upstream(message: string)       // the value of a top-level `error` field
    | DecodeFailed(message: string)   // the JSON decoder refused the payload

  const ThreadPrefix := "thread."
  const DoneSentinel := "[DONE]"

  /** The decoder's input for a record: wrapped exactly when its type starts with
      `thread.`. */
  function Input(e: Event): (p: Payload)
    ensures p.Wrapped? <==> HasPrefix(e.typ, ThreadPrefix)
    ensures p.Raw? ==> p == Raw(e.data)
    ensures p.Wrapped? ==> p == Wrapped(e.typ, e.data)
  {
    if e.typ == "" || !HasPrefix(e.typ, ThreadPrefix) then Raw(e.data) else Wrapped(e.typ, e.data)
  }

  /** The stream's error once the decoder has run dry. */
  function ReadFailure(readErr: Option<string>): (r: Option<StreamError>)
    ensures r.None? <==> readErr.None?
  {
    match readErr
    case None => None
    case Some(m) => Some(ReadFailed(m))
  }

  datatype Outcome<T> = Yield(value: T) | Fail(error: StreamError) | Exhausted

  /** What the stream makes of a record it does not skip: a top-level `error` field fails
      the stream before any decoding; otherwise the decoder's input is decoded, and a
      failure to decode fails the stream too. */
  function Decide<T>(decode: Payload -> Result<T, string>, errorField: string -> Option<string>,
                     e: Event): (o: Outcome<T>)
    ensures !o.Exhausted?
    ensures errorField(e.data).Some? ==> o == Fail(Upstream(errorField(e.data).value))
    ensures o.Yield? ==> decode(Input(e)) == Success(o.value)
    ensures errorField(e.data).None? ==>
      match decode(Input(e))
      case Success(v) => o == Yield(v)
      case Failure(m) => o == Fail(DecodeFailed(m))
  {
    match errorField(e.data)
    case Some(m) => Fail(Upstream(m))
    case None =>
      match decode(Input(e))
      case Failure(m) => Fail(DecodeFailed(m))
      case Success(v) => Yield(v)
  }

  /** The result of one `Next` on the stream: what it produced, the records left to the
      decoder afterwards, and the stream's `done` flag. */
  datatype Pulled<T> = Pulled(outcome: Outcome<T>, left: seq<Event>, done: bool)

  /** One `Next` on a stream with no error yet, over the records still to come: records
      are read until one decodes, fails, or there are none left. A record whose data
      starts with `[DONE]` sets `done`, and from then on every record is read and skipped.
      So a value or a failure can only come from the very next record; once `done` or
      after a `[DONE]`, every record is used up. */
  function Pull<T>(decode: Payload -> Result<T, string>, errorField: string -> Option<string>,
                   rest: seq<Event>, done: bool): (p: Pulled<T>)
    ensures p.outcome.Exhausted? <==> rest == [] || done || HasPrefix(rest[0].data, DoneSentinel)
    ensures p.outcome.Exhausted? ==> p.left == [] && p.done == (done || rest != [])
    ensures !p.outcome.Exhausted? ==>
      p.left == rest[1..] && !p.done && p.outcome == Decide(decode, errorField, rest[0])
  {
    if rest == [] then Pulled(Exhausted, [], done)
    else if done || HasPrefix(rest[0].data, DoneSentinel) then
      Pull(decode, errorField, rest[1..], true)
    else Pulled(Decide(decode, errorField, rest[0]), rest[1..], false)
  }

  /** `Stream[T]`: a decoder, the last decoded value, the error, and whether `[DONE]` has
      been seen. */
  class Stream<T> {
    const decoder: EventStreamDecoder
    const decode: Payload -> Result<T, string>
    const errorField: string -> Option<string>
    var cur: T
    var err: Option<StreamError>
    var done: bool

    /** The stream's error is set whenever the decoder's is: it is copied over when the
        decoder runs dry. */
    ghost predicate Valid()
      reads this, decoder
    {
      decoder.Valid() && (decoder.err.Some? ==> err.Some?)
    }

    /** `NewStream(decoder, err)`; `zero` is the value `Current` gives before anything has
        been decoded. */
    constructor(decoder: EventStreamDecoder, err: Option<StreamError>, zero: T,
                decode: Payload -> Result<T, string>, errorField: string -> Option<string>)
      requires decoder.Valid() && decoder.err.None?
      ensures Valid()
      ensures this.decoder == decoder && this.decode == decode && this.errorField == errorField
      ensures cur == zero && this.err == err && !done
    {
      this.decoder := decoder;
      this.decode := decode;
      this.errorField := errorField;
      cur := zero;
      this.err := err;
      done := false;
    }

    /** Advances to the next decoded value and answers whether there is one; see `Pull`.
        When the decoder runs dry the stream takes over its error, so a clean end of input
        leaves no error. Once the stream has an error, nothing changes any more. */
    method Next() returns (ok: bool)
      requires Valid()
      modifies this, decoder
      ensures Valid()
      ensures old(err).Some? ==> !ok && unchanged(this) && unchanged(decoder)
      ensures old(err).None? ==>
        var p := Pull(decode, errorField, old(decoder.rest), old(done));
        decoder.rest == p.left && done == p.done && decoder.closed == old(decoder.closed)
        && match p.outcome
           case Yield(v) => ok && cur == v && err.None? && decoder.err.None?
           case Fail(x) => !ok && cur == old(cur) && err == Some(x) && decoder.err.None?
           case Exhausted =>
             !ok && cur == old(cur) && err == ReadFailure(decoder.readErr)
             && decoder.err == decoder.readErr
    {
      if err.Some? {
        return false;
      }
      ghost var want := Pull(decode, errorField, decoder.rest, done);
      while true
        invariant decoder.Valid() && decoder.err.None? && err.None?
        invariant cur == old(cur) && decoder.closed == old(decoder.closed)
        invariant Pull(decode, errorField, decoder.rest, done) == want
        decreases |decoder.rest|
      {
        var more := decoder.Next();
        if !more {
          break;
        }
        if done {
          continue;
        }
        var e := decoder.Current();
        if HasPrefix(e.data, DoneSentinel) {
          done := true;
          continue;
        }
        ok := Dispatch(e);
        return;
      }
      err := ReadFailure(decoder.Err());
      return false;
    }

    /** What `Next` does with a record that is not skipped: a top-level `error` field
        fails the stream, otherwise the record is decoded, and a failure to decode fails
        the stream too. */
    method Dispatch(e: Event) returns (ok: bool)
      modifies this
      ensures var o := Decide(decode, errorField, e);
        (o.Yield? ==> ok && cur == o.value && err == old(err))
        && (o.Fail? ==> !ok && cur == old(cur) && err == Some(o.error))
      ensures done == old(done)
    {
      match errorField(e.data)
      case Some(m) =>
        err := Some(Upstream(m));
        return false;
      case None =>
      var r := decode(Input(e));
      match r
      case Failure(m) =>
        err := Some(DecodeFailed(m));
        return false;
      case Success(v) =>
        cur := v;
        return true;
    }

    /** The value the last successful `Next` decoded. */
    function Current(): T
      reads this
    {
      cur
    }

    function Err(): Option<StreamError>
      reads this
    {
      err
    }

    method Close()
      requires Valid()
      modifies decoder
      ensures Valid()
      ensures decoder.closed
      ensures decoder.pos == old(decoder.pos) && decoder.evt == old(decoder.evt)
      ensures decoder.err == old(decoder.err) && decoder.rest == old(decoder.rest)
    {
      decoder.Close();
    }
  }

  // ---------------------------------------------------------------------------------
  // The stream as a whole.

  /** Calling `Next` until it answers false, in terms of the records the decoder dispatches:
      the values produced and the error left behind. Records after `[DONE]` are skipped;
      an `error` field or a decoding failure ends the values with that error; otherwise the
      decoder's read error, if any, is the final one. */
  function Drain<T>(decode: Payload -> Result<T, string>, errorField: string -> Option<string>,
                    records: seq<Event>, readErr: Option<string>, done: bool): (r: (seq<T>, Option<StreamError>))
    ensures done ==> r == ([], ReadFailure(readErr))
    ensures |r.0| <= |records|
  {
    if records == [] then ([], ReadFailure(readErr))
    else
      var e := records[0];
      if done || HasPrefix(e.data, DoneSentinel) then
        Drain(decode, errorField, records[1..], readErr, true)
      else
        var o := Decide(decode, errorField, e);
        if o.Yield? then
          var rest := Drain(decode, errorField, records[1..], readErr, false);
          ([o.value] + rest.0, rest.1)
        else ([], Some(o.error))
  }

  /** One `Next` takes the first step of `Drain` over the records still to come: a value
      is the first of the values left, a failure is the final error, and running dry leaves
      the decoder's error. */
  lemma {:induction false} PullStartsDrain<T>(decode: Payload -> Result<T, string>,
      errorField: string -> Option<string>, rest: seq<Event>, readErr: Option<string>, done: bool)
    ensures var p := Pull(decode, errorField, rest, done);
      var d := Drain(decode, errorField, rest, readErr, done);
      match p.outcome
      case Yield(v) =>
        var after := Drain(decode, errorField, p.left, readErr, p.done);
        d == ([v] + after.0, after.1)
      case Fail(x) => d == ([], Some(x))
      case Exhausted => d == ([], ReadFailure(readErr))
  {
  }

  /** What follows a record whose data starts with `[DONE]` makes no difference. */
  lemma {:induction false} NothingAfterDoneMatters<T>(decode: Payload -> Result<T, string>,
      errorField: string -> Option<string>, records: seq<Event>, e: Event, rest: seq<Event>,
      readErr: Option<string>, done: bool)
    requires HasPrefix(e.data, DoneSentinel)
    ensures Drain(decode, errorField, records + [e] + rest, readErr, done)
         == Drain(decode, errorField, records + [e], readErr, done)
    decreases |records|
  {
    if records == [] {
      assert records + [e] + rest == [e] + rest;
      assert ([e] + rest)[1..] == rest;
      assert (records + [e])[1..] == [];
    } else {
      assert (records + [e] + rest)[0] == records[0] == (records + [e])[0];
      assert (records + [e] + rest)[1..] == records[1..] + [e] + rest;
      assert (records + [e])[1..] == records[1..] + [e];
      NothingAfterDoneMatters(decode, errorField, records[1..], e, rest, readErr, true);
      NothingAfterDoneMatters(decode, errorField, records[1..], e, rest, readErr, false);
    }
  }

  /** A record with an `error` field, reached before `[DONE]`, ends the stream with that
      error, after exactly the decoded values of the records before it, in order. */
  lemma {:induction false} UpstreamErrorStops<T>(decode: Payload -> Result<T, string>,
      errorField: string -> Option<string>, records: seq<Event>, readErr: Option<string>, e: Event, m: string)
    requires !HasPrefix(e.data, DoneSentinel) && errorField(e.data) == Some(m)
    requires forall i :: 0 <= i < |records| ==> !HasPrefix(records[i].data, DoneSentinel)
    requires forall i :: 0 <= i < |records| ==> errorField(records[i].data).None?
    requires forall i :: 0 <= i < |records| ==> decode(Input(records[i])).Success?
    ensures Drain(decode, errorField, records + [e], readErr, false).1 == Some(Upstream(m))
    ensures |Drain(decode, errorField, records + [e], readErr, false).0| == |records|
    ensures forall i :: 0 <= i < |records| ==>
      Drain(decode, errorField, records + [e], readErr, false).0[i] == decode(Input(records[i])).value
    decreases |records|
  {
    if records == [] {
      assert records + [e] == [e];
    } else {
      assert (records + [e])[0] == records[0];
      assert (records + [e])[1..] == records[1..] + [e];
      UpstreamErrorStops(decode, errorField, records[1..], readErr, e, m);
      var d := Drain(decode, errorField, records + [e], readErr, false);
      var d' := Drain(decode, errorField, records[1..] + [e], readErr, false);
      assert d.0 == [decode(Input(records[0])).value] + d'.0;
      forall i | 0 <= i < |records|
        ensures d.0[i] == decode(Input(records[i])).value
      {
        if i > 0 {
          assert d.0[i] == d'.0[i - 1];
          assert records[1..][i - 1] == records[i];
        }
      }
    }
  }
}
