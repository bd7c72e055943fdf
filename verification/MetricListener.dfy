/** Reading newline-terminated samples from a socket with timeouts, and forwarding them in batches. */
module MetricListener {
  const MAX_BATCH_SIZE: nat := 200

  // ----- the socket -----

  /** What a receive call yields; empty data is the end of the stream. An interrupted call fails like any other. */
  datatype Receipt = Data(bytes: string) | TimedOut | Failed

  /** How a stream arrives: its bytes, time-outs between them, and perhaps a failing call that cuts it off. */
  datatype Arrival = Byte(c: char) | Gap | Cut

  function Bytes(s: string): seq<Arrival> { seq(|s|, i requires 0 <= i < |s| => Byte(s[i])) }

  /** What arrives up to the end or the failure, the pieces it came in forgotten. */
  function Arriving(receipts: seq<Receipt>): seq<Arrival> {
    if receipts == [] || receipts[0] == Data("") then []
    else
      match receipts[0]
      case Data(bytes) => Bytes(bytes) + Arriving(receipts[1..])
      case TimedOut => [Gap] + Arriving(receipts[1..])
      case Failed => [Cut]
  }

  /** The stream is cut off by a failing call before it ends. */
  predicate Fails(receipts: seq<Receipt>) { Cut in Arriving(receipts) }

  function Text(arrivals: seq<Arrival>): string {
    if arrivals == [] || arrivals[0].Cut? then ""
    else (if arrivals[0].Byte? then [arrivals[0].c] else "") + Text(arrivals[1..])
  }

  function StreamOf(receipts: seq<Receipt>): string { Text(Arriving(receipts)) }

  function Gaps(arrivals: seq<Arrival>): nat {
    if arrivals == [] || arrivals[0].Cut? then 0
    else (if arrivals[0].Gap? then 1 else 0) + Gaps(arrivals[1..])
  }

  function Timeouts(receipts: seq<Receipt>): nat { Gaps(Arriving(receipts)) }

  class Socket {
    const receipts: seq<Receipt>
    var position: nat

    constructor (receipts: seq<Receipt>)
      ensures this.receipts == receipts && position == 0
    {
      this.receipts, position := receipts, 0;
    }

    predicate Valid()
      reads this
    {
      position <= |receipts|
    }

    function Left(): seq<Receipt>
      requires Valid()
      reads this
    {
      receipts[position..]
    }

    method Receive() returns (receipt: Receipt)
      requires Valid()
      modifies this
      ensures Valid()
      ensures old(Left()) == [] ==> receipt == Data("") && position == old(position)
      ensures old(Left()) != [] ==> receipt == old(Left())[0] && Left() == old(Left())[1..]
    {
      if position == |receipts| {
        return Data("");
      }
      receipt := receipts[position];
      position := position + 1;
    }
  }

  // ----- lines -----

  /** The position of the first newline, or the length. */
  function Eol(s: string): (n: nat)
    ensures n <= |s| && (n < |s| ==> s[n] == '\n') && forall i | 0 <= i < n :: s[i] != '\n'
  {
    if s == "" || s[0] == '\n' then 0 else 1 + Eol(s[1..])
  }

  /** The lines of a text, each with its newline, the last perhaps without. */
  function Lines(s: string): seq<string>
    decreases |s|
  {
    if s == "" then []
    else if Eol(s) == |s| then [s]
    else [s[..Eol(s) + 1]] + Lines(s[Eol(s) + 1..])
  }

  /** The lines of a text that end with a newline. */
  function CompleteLines(s: string): seq<string>
    decreases |s|
  {
    if Eol(s) == |s| then [] else [s[..Eol(s) + 1]] + CompleteLines(s[Eol(s) + 1..])
  }

  /** The lines a reader gets out of a text: all, or if the stream fails only the complete ones. */
  function LinesRead(s: string, fails: bool): seq<string> { if fails then CompleteLines(s) else Lines(s) }

  function Joined(lines: seq<string>): string {
    if lines == [] then "" else lines[0] + Joined(lines[1..])
  }

  /** Lines are a split of the text: nothing is lost, and newlines only end lines. */
  lemma {:induction false} LinesSplit(s: string)
    ensures Joined(Lines(s)) == s
    ensures forall i | 0 <= i < |Lines(s)| :: Lines(s)[i] != "" && Eol(Lines(s)[i]) >= |Lines(s)[i]| - 1
    ensures forall i | 0 <= i < |Lines(s)| - 1 :: Eol(Lines(s)[i]) == |Lines(s)[i]| - 1
    decreases |s|
  {
    if s != "" {
      if Eol(s) == |s| {
        assert Lines(s)[1..] == [];
      } else {
        var rest := s[Eol(s) + 1..];
        LinesSplit(rest);
        FirstLine(s);
        assert Lines(s)[1..] == Lines(rest);
        assert s == s[..Eol(s) + 1] + rest;
      }
    }
  }

  lemma EolAt(s: string, n: nat)
    requires n <= |s| && (n < |s| ==> s[n] == '\n') && forall i | 0 <= i < n :: s[i] != '\n'
    ensures Eol(s) == n
  {
  }

  lemma FirstLine(s: string)
    requires Eol(s) < |s|
    ensures Eol(s[..Eol(s) + 1]) == Eol(s)
  {
    EolAt(s[..Eol(s) + 1], Eol(s));
  }

  /** A line that is complete in the buffer is the first line whatever follows. */
  lemma LineReady(buffer: string, more: string)
    requires Eol(buffer) < |buffer|
    ensures Lines(buffer + more) == [buffer[..Eol(buffer) + 1]] + Lines(buffer[Eol(buffer) + 1..] + more)
    ensures CompleteLines(buffer + more)
         == [buffer[..Eol(buffer) + 1]] + CompleteLines(buffer[Eol(buffer) + 1..] + more)
  {
    var n := Eol(buffer);
    EolAt(buffer + more, n);
    assert (buffer + more)[..n + 1] == buffer[..n + 1];
    assert (buffer + more)[n + 1..] == buffer[n + 1..] + more;
  }

  // ----- the reader -----

  /** What the reader's generator yields: a line or a pause in the data; or it ends, or lets an error through. */
  datatype Item = Line(text: string) | Pause | End | Error

  /** The lines and pauses a reader makes of what arrives after the beginning of a line. */
  function Yields(partial: string, arrivals: seq<Arrival>): seq<Item>
    decreases |arrivals|
  {
    if arrivals == [] then if partial == "" then [] else [Line(partial)]
    else
      match arrivals[0]
      case Byte(c) =>
        if c == '\n' then [Line(partial + [c])] + Yields("", arrivals[1..]) else Yields(partial + [c], arrivals[1..])
      case Gap => [Pause] + Yields(partial, arrivals[1..])
      case Cut => []
  }

  function LinesIn(items: seq<Item>): seq<string> {
    if items == [] then [] else (if items[0].Line? then [items[0].text] else []) + LinesIn(items[1..])
  }

  function Pauses(items: seq<Item>): nat {
    if items == [] then 0 else (if items[0].Pause? then 1 else 0) + Pauses(items[1..])
  }

  lemma Regroup(a: string, b: string, c: string)
    ensures a + (b + c) == a + b + c
  {
  }

  lemma LineGrows(partial: string, c: char)
    requires Eol(partial) == |partial|
    ensures Eol(partial + [c]) == if c == '\n' then |partial| else |partial| + 1
  {
    EolAt(partial + [c], if c == '\n' then |partial| else |partial| + 1);
  }

  lemma LineComplete(line: string, text: string, fails: bool)
    requires Eol(line) + 1 == |line|
    ensures LinesRead(line + text, fails) == [line] + LinesRead(text, fails)
  {
    LineReady(line, text);
    assert line[..Eol(line) + 1] == line && line[Eol(line) + 1..] + text == text;
  }

  lemma LinesInMore(item: Item, rest: seq<Item>)
    ensures LinesIn([item] + rest) == (if item.Line? then [item.text] else []) + LinesIn(rest)
    ensures Pauses([item] + rest) == (if item.Pause? then 1 else 0) + Pauses(rest)
  {
    assert ([item] + rest)[1..] == rest;
  }

  /** The lines yielded are the lines of the stream, those without their newline only if it ends by itself. */
  lemma {:induction false} YieldsLines(partial: string, arrivals: seq<Arrival>)
    requires Eol(partial) == |partial|
    ensures LinesIn(Yields(partial, arrivals)) == LinesRead(partial + Text(arrivals), Cut in arrivals)
    ensures Pauses(Yields(partial, arrivals)) == Gaps(arrivals)
    decreases |arrivals|, 1
  {
    if arrivals == [] || arrivals[0].Cut? {
      assert partial + "" == partial;
    } else {
      YieldsLinesFrom(partial, arrivals[0], arrivals[1..]);
      assert arrivals == [arrivals[0]] + arrivals[1..];
    }
  }

  lemma {:induction false} YieldsLinesFrom(partial: string, first: Arrival, rest: seq<Arrival>)
    requires Eol(partial) == |partial| && !first.Cut?
    ensures LinesIn(Yields(partial, [first] + rest)) == LinesRead(partial + Text([first] + rest), Cut in rest)
    ensures Pauses(Yields(partial, [first] + rest)) == Gaps([first] + rest)
    decreases |rest| + 1, 0
  {
    assert ([first] + rest)[1..] == rest;
    match first
    case Gap =>
      YieldsLines(partial, rest);
      LinesInMore(Pause, Yields(partial, rest));
      assert "" + Text(rest) == Text(rest);
    case Byte(c) =>
      LineGrows(partial, c);
      Regroup(partial, [c], Text(rest));
      if c == '\n' {
        LineComplete(partial + [c], Text(rest), Cut in rest);
        YieldsLines("", rest);
        LinesInMore(Line(partial + [c]), Yields("", rest));
        assert "" + Text(rest) == Text(rest);
      } else {
        YieldsLines(partial + [c], rest);
      }
  }

  /** Bytes without a newline only lengthen the line. */
  lemma {:induction false} YieldsLater(partial: string, s: string, arrivals: seq<Arrival>)
    requires forall i | 0 <= i < |s| :: s[i] != '\n'
    ensures Yields(partial, Bytes(s) + arrivals) == Yields(partial + s, arrivals)
    decreases |s|
  {
    if s == "" {
      assert Bytes(s) + arrivals == arrivals && partial + s == partial;
    } else {
      assert (Bytes(s) + arrivals)[1..] == Bytes(s[1..]) + arrivals;
      assert partial + s == partial + [s[0]] + s[1..];
      YieldsLater(partial + [s[0]], s[1..], arrivals);
    }
  }

  lemma BytesSplit(s: string, n: nat, arrivals: seq<Arrival>)
    requires n <= |s|
    ensures Bytes(s) + arrivals == Bytes(s[..n]) + (Bytes(s[n..]) + arrivals)
  {
  }

  lemma NewlineFirst(s: string, arrivals: seq<Arrival>)
    requires s != "" && s[0] == '\n'
    ensures Bytes(s) + arrivals == [Byte('\n')] + (Bytes(s[1..]) + arrivals)
  {
  }

  lemma LineEnds(partial: string, arrivals: seq<Arrival>)
    ensures Yields(partial, [Byte('\n')] + arrivals) == [Line(partial + ['\n'])] + Yields("", arrivals)
  {
    assert ([Byte('\n')] + arrivals)[1..] == arrivals;
  }

  /** A line that is complete in the buffer is yielded next, whatever follows. */
  lemma YieldsLine(buffer: string, arrivals: seq<Arrival>)
    requires Eol(buffer) < |buffer|
    ensures Yields("", Bytes(buffer) + arrivals)
         == [Line(buffer[..Eol(buffer) + 1])] + Yields("", Bytes(buffer[Eol(buffer) + 1..]) + arrivals)
  {
    var n := Eol(buffer);
    var line, rest := buffer[..n], buffer[n..];
    BytesSplit(buffer, n, arrivals);
    YieldsLater("", line, Bytes(rest) + arrivals);
    NewlineFirst(rest, arrivals);
    LineEnds("" + line, Bytes(rest[1..]) + arrivals);
    assert "" + line + ['\n'] == buffer[..n + 1] && rest[1..] == buffer[n + 1..];
  }

  /** A buffer without a newline holds the beginning of a line. */
  lemma YieldsRest(buffer: string, arrivals: seq<Arrival>)
    requires Eol(buffer) == |buffer|
    ensures Yields("", Bytes(buffer) + arrivals) == Yields(buffer, arrivals)
  {
    YieldsLater("", buffer, arrivals);
    assert "" + buffer == buffer;
  }

  class LineReader {
    const socket: Socket
    var lineBuf: string
    var finished: bool

    constructor (socket: Socket)
      requires socket.Valid()
      ensures Valid() && this.socket == socket && lineBuf == "" && !finished
    {
      this.socket, lineBuf, finished := socket, "", false;
    }

    predicate Valid()
      reads this, socket
    {
      socket.Valid() && (finished ==> lineBuf == "")
    }

    /** An error will end the reading. */
    predicate Doomed()
      requires Valid()
      reads this, socket
    {
      !finished && Fails(socket.Left())
    }

    /** The lines and pauses still to be yielded. */
    function Remaining(): seq<Item>
      requires Valid()
      reads this, socket
    {
      if finished then [] else Yields("", Bytes(lineBuf) + Arriving(socket.Left()))
    }

    /** Takes the first complete line out of the buffer. */
    method TakeLine() returns (line: string)
      requires Valid() && !finished && Eol(lineBuf) < |lineBuf|
      modifies `lineBuf
      ensures Valid() && old(Remaining()) == [Line(line)] + Remaining()
    {
      YieldsLine(lineBuf, Arriving(socket.Left()));
      var eolPos := Eol(lineBuf);
      line := lineBuf[..eolPos + 1];
      lineBuf := lineBuf[eolPos + 1..];
    }

    /** One receive call when there is no complete line; data goes to the end of the buffer. */
    method Pull() returns (receipt: Receipt)
      requires Valid() && !finished && Eol(lineBuf) == |lineBuf|
      modifies `lineBuf, socket
      ensures Valid()
      ensures match receipt
        case Failed => old(Remaining()) == [] && old(Doomed())
        case TimedOut => old(Remaining()) == [Pause] + Remaining() && Doomed() == old(Doomed())
        case Data(bytes) =>
          if bytes == "" then old(Remaining()) == Yields(lineBuf, []) && lineBuf == old(lineBuf) && !old(Doomed())
          else Remaining() == old(Remaining()) && Doomed() == old(Doomed())
               && |socket.Left()| < |old(socket.Left())|
    {
      ghost var left := socket.Left();
      YieldsRest(lineBuf, Arriving(left));
      receipt := socket.Receive();
      YieldsRest(lineBuf, Arriving(socket.Left()));
      assert lineBuf + "" == lineBuf;
      if receipt.Data? {
        BytesJoin(lineBuf, receipt.bytes, Arriving(socket.Left()));
        lineBuf := lineBuf + receipt.bytes;
      }
    }

    /** The end of the stream: what is left in the buffer is the last line. */
    method Finish() returns (item: Item)
      requires Valid() && !finished
      modifies this
      ensures Valid() && finished && item == if old(lineBuf) == "" then End else Line(old(lineBuf))
    {
      finished := true;
      if lineBuf == "" {
        return End;
      }
      item := Line(lineBuf);
      lineBuf := "";
    }

    /** An error ends the generator, and what is left in the buffer with it. */
    method Abort() returns (item: Item)
      requires Valid() && !finished
      modifies this
      ensures Valid() && finished && item.Error?
    {
      finished, lineBuf := true, "";
      return Error;
    }

    /** Runs the generator to its next yield. */
    method Next() returns (item: Item)
      requires Valid()
      modifies this, socket
      ensures Valid()
      ensures old(Remaining()) != [] ==>
        && (item.Line? || item.Pause?) && old(Remaining()) == [item] + Remaining()
        && Doomed() == old(Doomed())
      ensures old(Remaining()) == [] ==> finished && item == if old(Doomed()) then Error else End
    {
      if finished {
        return End;
      }
      while Eol(lineBuf) == |lineBuf|
        invariant Valid() && !finished && Remaining() == old(Remaining()) && Doomed() == old(Doomed())
        decreases |socket.Left()|
      {
        var receipt := Pull();
        if receipt.TimedOut? {
          return Pause;
        }
        if receipt.Failed? {
          item := Abort();
          return;
        }
        if receipt == Data("") {
          item := Finish();
          return;
        }
      }
      var line := TakeLine();
      return Line(line);
    }
  }

  lemma BytesJoin(a: string, b: string, arrivals: seq<Arrival>)
    ensures Bytes(a) + (Bytes(b) + arrivals) == Bytes(a + b) + arrivals
    ensures Cut in Bytes(b) + arrivals <==> Cut in arrivals
  {
  }

  // ----- the handler -----

  function Concat(batches: seq<seq<string>>): seq<string> {
    if batches == [] then [] else Concat(batches[..|batches| - 1]) + batches[|batches| - 1]
  }

  function Stripped(lines: seq<string>, strip: string -> string): (t: seq<string>)
    ensures |t| == |lines|
  {
    seq(|lines|, i requires 0 <= i < |lines| => strip(lines[i]))
  }

  lemma ConcatMore(batches: seq<seq<string>>, batch: seq<string>)
    ensures Concat(batches + [batch]) == Concat(batches) + batch
  {
    assert (batches + [batch])[..|batches|] == batches;
  }

  /** Every line seen was forwarded, stripped and in order, or waits in the batch. */
  ghost predicate ForwardedSoFar(seen: seq<string>, strip: string -> string, forwarded: seq<seq<string>>,
                                 batch: seq<string>, pauses: nat) {
    && Concat(forwarded) + batch == Stripped(seen, strip)
    && (forall b | b in forwarded :: 1 <= |b| <= MAX_BATCH_SIZE)
    && |batch| <= MAX_BATCH_SIZE
    && MAX_BATCH_SIZE * (|forwarded| - pauses) + |batch| <= |seen|
  }

  lemma LineSeen(seen: seq<string>, text: string, strip: string -> string, forwarded: seq<seq<string>>,
                 batch: seq<string>, pauses: nat)
    requires ForwardedSoFar(seen, strip, forwarded, batch, pauses) && |batch| < MAX_BATCH_SIZE
    ensures ForwardedSoFar(seen + [text], strip, forwarded, batch + [strip(text)], pauses)
  {
    assert Stripped(seen + [text], strip) == Stripped(seen, strip) + [strip(text)];
    assert Concat(forwarded) + (batch + [strip(text)]) == Concat(forwarded) + batch + [strip(text)];
  }

  lemma BatchForwarded(seen: seq<string>, strip: string -> string, forwarded: seq<seq<string>>, batch: seq<string>,
                       pauses: nat, pause: bool)
    requires ForwardedSoFar(seen, strip, forwarded, batch, pauses) && batch != []
        && (pause || |batch| == MAX_BATCH_SIZE)
    ensures ForwardedSoFar(seen, strip, forwarded + [batch], [], if pause then pauses + 1 else pauses)
  {
    ConcatMore(forwarded, batch);
    assert Concat(forwarded + [batch]) + [] == Concat(forwarded + [batch]);
  }

  /** What has been forwarded, and the batch in hand. */
  datatype Sent = Sent(forwarded: seq<seq<string>>, batch: seq<string>)

  /** A line joins the batch; at a pause, or when it is full, the batch is forwarded. */
  function Take(sent: Sent, item: Item, strip: string -> string): Sent {
    var batch := if item.Line? then sent.batch + [strip(item.text)] else sent.batch;
    if (item.Pause? && batch != []) || |batch| >= MAX_BATCH_SIZE then Sent(sent.forwarded + [batch], [])
    else Sent(sent.forwarded, batch)
  }

  function TakeAll(sent: Sent, items: seq<Item>, strip: string -> string): Sent
    decreases |items|
  {
    if items == [] then sent else TakeAll(Take(sent, items[0], strip), items[1..], strip)
  }

  lemma TakeLineForwards(sent: Sent, text: string, strip: string -> string, seen: seq<string>, pauses: nat)
    requires |sent.batch| < MAX_BATCH_SIZE && ForwardedSoFar(seen, strip, sent.forwarded, sent.batch, pauses)
    ensures
      var sent' := Take(sent, Line(text), strip);
      && |sent'.batch| < MAX_BATCH_SIZE
      && ForwardedSoFar(seen + [text], strip, sent'.forwarded, sent'.batch, pauses)
  {
    LineSeen(seen, text, strip, sent.forwarded, sent.batch, pauses);
    var batch := sent.batch + [strip(text)];
    if |batch| >= MAX_BATCH_SIZE {
      BatchForwarded(seen + [text], strip, sent.forwarded, batch, pauses, false);
    }
  }

  lemma TakePauseForwards(sent: Sent, strip: string -> string, seen: seq<string>, pauses: nat)
    requires |sent.batch| < MAX_BATCH_SIZE && ForwardedSoFar(seen, strip, sent.forwarded, sent.batch, pauses)
    ensures
      var sent' := Take(sent, Pause, strip);
      sent'.batch == [] && ForwardedSoFar(seen, strip, sent'.forwarded, sent'.batch, pauses + 1)
  {
    if sent.batch != [] {
      BatchForwarded(seen, strip, sent.forwarded, sent.batch, pauses, true);
    }
  }

  /** Taking an item in forgets no line, and only a pause cuts a batch short. */
  lemma TakeForwards(sent: Sent, item: Item, strip: string -> string, seen: seq<string>, pauses: nat)
    requires (item.Line? || item.Pause?) && |sent.batch| < MAX_BATCH_SIZE
    requires ForwardedSoFar(seen, strip, sent.forwarded, sent.batch, pauses)
    ensures
      var sent', pauses' := Take(sent, item, strip), if item.Pause? then pauses + 1 else pauses;
      && |sent'.batch| < MAX_BATCH_SIZE && (item.Pause? ==> sent'.batch == [])
      && ForwardedSoFar(seen + LinesIn([item]), strip, sent'.forwarded, sent'.batch, pauses')
  {
    assert seen + [] == seen && [item][1..] == [];
    if item.Line? {
      TakeLineForwards(sent, item.text, strip, seen, pauses);
      assert [item.text] + [] == [item.text];
    } else {
      TakePauseForwards(sent, strip, seen, pauses);
    }
  }

  lemma SeenFirst(seen: seq<string>, item: Item, rest: seq<Item>)
    ensures seen + LinesIn([item]) + LinesIn(rest) == seen + LinesIn([item] + rest)
  {
    LinesInMore(item, rest);
    LinesInMore(item, []);
    assert [item] + [] == [item];
    var line := if item.Line? then [item.text] else [];
    assert line + [] == line && seen + line + LinesIn(rest) == seen + (line + LinesIn(rest));
  }

  lemma {:induction false} TakeAllForwards(sent: Sent, items: seq<Item>, strip: string -> string, seen: seq<string>,
                                           pauses: nat)
    requires forall item | item in items :: item.Line? || item.Pause?
    requires |sent.batch| < MAX_BATCH_SIZE && ForwardedSoFar(seen, strip, sent.forwarded, sent.batch, pauses)
    ensures
      var all := TakeAll(sent, items, strip);
      && |all.batch| < MAX_BATCH_SIZE
      && ForwardedSoFar(seen + LinesIn(items), strip, all.forwarded, all.batch, pauses + Pauses(items))
    decreases |items|
  {
    if items == [] {
      assert seen + [] == seen;
    } else {
      var item, more := items[0], if items[0].Pause? then 1 else 0;
      TakeForwards(sent, item, strip, seen, pauses);
      TakeAllForwards(Take(sent, item, strip), items[1..], strip, seen + LinesIn([item]), pauses + more);
      SeenFirst(seen, item, items[1..]);
      assert [item] + items[1..] == items;
    }
  }

  /** The handler's loop body: takes one item into the batch and forwards the batch when it is time. */
  method TakeItem(item: Item, strip: string -> string, forwarded: seq<seq<string>>, batch: seq<string>)
      returns (forwarded': seq<seq<string>>, batch': seq<string>)
    ensures Sent(forwarded', batch') == Take(Sent(forwarded, batch), item, strip)
  {
    forwarded', batch' := forwarded, batch;
    if item.Line? {
      batch' := batch + [strip(item.text)];
    }
    if (item.Pause? && batch' != []) || |batch'| >= MAX_BATCH_SIZE {
      forwarded' := forwarded' + [batch'];
      batch' := [];
    }
  }

  /** What is forwarded and what is still in hand when the stream has ended or failed. */
  function Received(receipts: seq<Receipt>, strip: string -> string): Sent {
    TakeAll(Sent([], []), Yields("", Arriving(receipts)), strip)
  }

  /**
   * What a handler makes of a connection. It comes to its end exactly if no call fails before that, and
   * then sends what is still in hand; if a call fails, that is lost.
   */
  ghost predicate Handled(receipts: seq<Receipt>, strip: string -> string, forwarded: seq<seq<string>>,
                          completed: bool, lost: seq<string>) {
    var Sent(sent, batch) := Received(receipts, strip);
    && completed == !Fails(receipts)
    && forwarded == sent + (if completed && batch != [] then [batch] else [])
    && lost == if completed then [] else batch
  }

  /** All lines are forwarded or lost, stripped and in order; batches are neither empty nor too long. */
  ghost predicate LinesForwarded(receipts: seq<Receipt>, strip: string -> string, forwarded: seq<seq<string>>,
                                 completed: bool, lost: seq<string>) {
    var lines := LinesRead(StreamOf(receipts), Fails(receipts));
    && Concat(forwarded) + lost == Stripped(lines, strip) && |lost| == Held(Arriving(receipts), 0)
    && (forall b | b in forwarded :: 1 <= |b| <= MAX_BATCH_SIZE)
    // only a pause or the end cuts a batch short
    && MAX_BATCH_SIZE * (|forwarded| - Timeouts(receipts) - if completed then 1 else 0) <= |lines|
  }

  method HandleConnection(socket: Socket, strip: string -> string)
      returns (forwarded: seq<seq<string>>, completed: bool, ghost lost: seq<string>)
    requires socket.Valid()
    modifies socket
    ensures Handled(old(socket.Left()), strip, forwarded, completed, lost)
    ensures LinesForwarded(old(socket.Left()), strip, forwarded, completed, lost)
  {
    ghost var receipts := socket.Left();
    var reader := new LineReader(socket);
    forwarded, completed, lost := [], true, [];
    var batch: seq<string> := [];
    assert Bytes("") + Arriving(receipts) == Arriving(receipts);
    var item := Line("");
    while item.Line? || item.Pause?
      invariant reader.Valid() && reader.socket == socket && fresh(reader)
      invariant TakeAll(Sent(forwarded, batch), reader.Remaining(), strip) == Received(receipts, strip)
      invariant if item.Line? || item.Pause? then reader.Doomed() == Fails(receipts)
                else reader.Remaining() == [] && item.Error? == Fails(receipts)
      decreases item.Line? || item.Pause?, |reader.Remaining()|
    {
      item := reader.Next();
      if item.Line? || item.Pause? {
        forwarded, batch := TakeItem(item, strip, forwarded, batch);
      }
    }
    if item.Error? {
      completed, lost := false, batch;
    } else if batch != [] {
      forwarded := forwarded + [batch];
    }
    HandledForwards(receipts, strip, forwarded, completed, lost);
  }

  // ----- what an interruption costs -----

  /** How many lines are in hand at the failure: those completed since the last time-out, less all full batches. */
  function Held(arrivals: seq<Arrival>, n: nat): nat
    decreases |arrivals|
  {
    if arrivals == [] then 0
    else
      match arrivals[0]
      case Byte(c) => Held(arrivals[1..], if c == '\n' then (n + 1) % MAX_BATCH_SIZE else n)
      case Gap => Held(arrivals[1..], 0)
      case Cut => n
  }

  lemma {:induction false} HeldBatch(partial: string, arrivals: seq<Arrival>, strip: string -> string, sent: Sent)
    requires |sent.batch| < MAX_BATCH_SIZE && Cut in arrivals
    ensures |TakeAll(sent, Yields(partial, arrivals), strip).batch| == Held(arrivals, |sent.batch|)
    decreases |arrivals|
  {
    var first, rest := arrivals[0], arrivals[1..];
    assert arrivals == [first] + rest;
    if first.Gap? {
      HeldBatch(partial, rest, strip, Take(sent, Pause, strip));
      TakeFirst(sent, Pause, Yields(partial, rest), strip);
    } else if first.Byte? && first.c == '\n' {
      HeldBatch("", rest, strip, Take(sent, Line(partial + [first.c]), strip));
      TakeFirst(sent, Line(partial + [first.c]), Yields("", rest), strip);
    } else if first.Byte? {
      HeldBatch(partial + [first.c], rest, strip, sent);
    }
  }

  lemma TakeFirst(sent: Sent, item: Item, rest: seq<Item>, strip: string -> string)
    ensures TakeAll(sent, [item] + rest, strip) == TakeAll(Take(sent, item, strip), rest, strip)
  {
    assert ([item] + rest)[1..] == rest;
  }

  lemma {:induction false} NothingHeld(arrivals: seq<Arrival>, n: nat)
    requires Cut !in arrivals
    ensures Held(arrivals, n) == 0
    decreases |arrivals|
  {
    if arrivals != [] {
      var m := if arrivals[0].Gap? then 0 else if arrivals[0].c == '\n' then (n + 1) % MAX_BATCH_SIZE else n;
      NothingHeld(arrivals[1..], m);
    }
  }

  lemma {:induction false} YieldsItems(partial: string, arrivals: seq<Arrival>)
    ensures forall item | item in Yields(partial, arrivals) :: item.Line? || item.Pause?
    decreases |arrivals|
  {
    if arrivals != [] && !arrivals[0].Cut? {
      YieldsItems(partial, arrivals[1..]);
      YieldsItems("", arrivals[1..]);
      if arrivals[0].Byte? {
        YieldsItems(partial + [arrivals[0].c], arrivals[1..]);
      }
    }
  }

  lemma HandledForwards(receipts: seq<Receipt>, strip: string -> string, forwarded: seq<seq<string>>,
                        completed: bool, lost: seq<string>)
    requires Handled(receipts, strip, forwarded, completed, lost)
    ensures LinesForwarded(receipts, strip, forwarded, completed, lost)
  {
    var arrivals := Arriving(receipts);
    var items := Yields("", arrivals);
    var Sent(sent, batch) := Received(receipts, strip);
    YieldsItems("", arrivals);
    YieldsLines("", arrivals);
    assert "" + Text(arrivals) == Text(arrivals) && [] + LinesIn(items) == LinesIn(items);
    TakeAllForwards(Sent([], []), items, strip, [], 0);
    if !completed {
      HeldBatch("", arrivals, strip, Sent([], []));
      assert sent + [] == sent;
    } else {
      NothingHeld(arrivals, 0);
      if batch != [] {
        ConcatMore(sent, batch);
      }
      assert sent + [] == sent && Concat(forwarded) + [] == Concat(forwarded);
    }
  }

  /**
   * Which lines a connection loses, exactly: the last complete ones before a failing call, as many as were in
   * hand. All are forwarded if and only if there were none.
   */
  lemma InterruptionLoses(receipts: seq<Receipt>, strip: string -> string, forwarded: seq<seq<string>>,
                          completed: bool, lost: seq<string>)
    requires Handled(receipts, strip, forwarded, completed, lost)
    ensures
      var lines, held := Stripped(LinesRead(StreamOf(receipts), Fails(receipts)), strip), Held(Arriving(receipts), 0);
      && held <= |lines| && Concat(forwarded) == lines[..|lines| - held] && lost == lines[|lines| - held..]
      && (Concat(forwarded) == lines <==> held == 0)
  {
    HandledForwards(receipts, strip, forwarded, completed, lost);
    assert |Concat(forwarded) + lost| == |Concat(forwarded)| + |lost|;
  }

  lemma ExampleReceived(strip: string -> string)
    ensures Arriving([Data("a\n"), Failed]) == [Byte('a'), Byte('\n'), Cut]
    ensures Received([Data("a\n"), Failed], strip) == Sent([], [strip("a\n")])
  {
    var receipts := [Data("a\n"), Failed];
    assert receipts[1..] == [Failed] && Bytes("a\n") == [Byte('a'), Byte('\n')];
    var arrivals := [Byte('a'), Byte('\n'), Cut];
    assert arrivals[1..] == [Byte('\n'), Cut] && arrivals[1..][1..] == [Cut];
    assert "" + ['a'] == "a" && "a" + ['\n'] == "a\n";
    assert Yields("a", arrivals[1..]) == [Line("a\n")] + Yields("", [Cut]);
    assert Yields("", arrivals) == [Line("a\n")];
    assert [Line("a\n")][1..] == [];
    assert [] + [strip("a\n")] == [strip("a\n")];
  }

  /** One line, then an interrupted call: the line is received and never forwarded. */
  lemma InterruptedLineLost(strip: string -> string, forwarded: seq<seq<string>>, completed: bool, lost: seq<string>)
    requires Handled([Data("a\n"), Failed], strip, forwarded, completed, lost)
    ensures !completed && forwarded == [] && lost == [strip("a\n")]
  {
    ExampleReceived(strip);
    assert Cut in Arriving([Data("a\n"), Failed]);
  }

  // ----- the handler's promise, on the receive calls themselves -----

  /** The stream neither ends nor fails in these calls. */
  predicate Flowing(receipts: seq<Receipt>) {
    forall receipt | receipt in receipts :: !receipt.Failed? && receipt != Data("")
  }

  /** All their data, strung together. */
  function Pieces(receipts: seq<Receipt>): string {
    if receipts == [] then ""
    else (match receipts[0] { case Data(bytes) => bytes case _ => "" }) + Pieces(receipts[1..])
  }

  lemma {:induction false} TextOfBytes(s: string, arrivals: seq<Arrival>)
    ensures Text(Bytes(s) + arrivals) == s + Text(arrivals)
    decreases |s|
  {
    if s == "" {
      assert Bytes(s) + arrivals == arrivals && s + Text(arrivals) == Text(arrivals);
    } else {
      assert Bytes(s) + arrivals == [Byte(s[0])] + (Bytes(s[1..]) + arrivals);
      TextOfBytes(s[1..], arrivals);
      assert s == [s[0]] + s[1..];
    }
  }

  lemma {:induction false} FlowArrives(before: seq<Receipt>, after: seq<Receipt>)
    requires Flowing(before)
    ensures Arriving(before + after) == Arriving(before) + Arriving(after)
    ensures Cut !in Arriving(before) && Text(Arriving(before)) == Pieces(before)
    decreases |before|
  {
    if before == [] {
      assert before + after == after;
      assert Arriving(before) + Arriving(after) == Arriving(after);
    } else {
      assert before == [before[0]] + before[1..] && before[0] in before;
      FlowArrives(before[1..], after);
      FirstArrives(before[0], before[1..], after);
    }
  }

  /** What arrives in a call that neither ends nor fails. */
  function Arrived(receipt: Receipt): seq<Arrival> { if receipt.Data? then Bytes(receipt.bytes) else [Gap] }

  lemma FirstOf(first: Receipt, rest: seq<Receipt>)
    requires !first.Failed? && first != Data("")
    ensures Arriving([first] + rest) == Arrived(first) + Arriving(rest)
    ensures Pieces([first] + rest) == (if first.Data? then first.bytes else "") + Pieces(rest)
  {
    assert ([first] + rest)[1..] == rest;
  }

  lemma TextOfFirst(first: Receipt, arrivals: seq<Arrival>)
    requires !first.Failed?
    ensures Text(Arrived(first) + arrivals) == (if first.Data? then first.bytes else "") + Text(arrivals)
    ensures Cut in Arrived(first) + arrivals <==> Cut in arrivals
  {
    if first.Data? {
      TextOfBytes(first.bytes, arrivals);
    } else {
      assert ([Gap] + arrivals)[1..] == arrivals;
    }
  }

  lemma FirstArrives(first: Receipt, rest: seq<Receipt>, after: seq<Receipt>)
    requires !first.Failed? && first != Data("")
    requires Arriving(rest + after) == Arriving(rest) + Arriving(after)
    requires Cut !in Arriving(rest) && Text(Arriving(rest)) == Pieces(rest)
    ensures Arriving([first] + rest + after) == Arriving([first] + rest) + Arriving(after)
    ensures Cut !in Arriving([first] + rest) && Text(Arriving([first] + rest)) == Pieces([first] + rest)
  {
    assert [first] + rest + after == [first] + (rest + after);
    FirstOf(first, rest + after);
    FirstOf(first, rest);
    ArrivalsJoin(Arrived(first), Arriving(rest), Arriving(after));
    TextOfFirst(first, Arriving(rest));
  }

  lemma ArrivalsJoin(a: seq<Arrival>, b: seq<Arrival>, c: seq<Arrival>)
    ensures a + (b + c) == a + b + c
  {
  }

  /** What of a stream that goes on is not a complete line yet. */
  function Leftover(partial: string, arrivals: seq<Arrival>): string
    decreases |arrivals|
  {
    if arrivals == [] then partial
    else if !arrivals[0].Byte? then Leftover(partial, arrivals[1..])
    else Leftover(if arrivals[0].c == '\n' then "" else partial + [arrivals[0].c], arrivals[1..])
  }

  lemma {:induction false} YieldsGoOn(partial: string, a: seq<Arrival>, b: seq<Arrival>)
    requires Cut !in a
    ensures Yields(partial, a + b) == Yields(partial, a + [Cut]) + Yields(Leftover(partial, a), b)
    decreases |a|
  {
    if a == [] {
      assert a + b == b && a + [Cut] == [Cut];
      assert Yields(partial, [Cut]) + Yields(partial, b) == Yields(partial, b);
    } else {
      var rest := a[1..];
      assert a[0] in a && (a + b)[1..] == rest + b && (a + [Cut])[1..] == rest + [Cut];
      var next := if a[0].Gap? then partial else if a[0].c == '\n' then "" else partial + [a[0].c];
      YieldsGoOn(next, rest, b);
      ItemsJoin(if a[0].Gap? then [Pause] else if a[0].c == '\n' then [Line(partial + ['\n'])] else [],
                Yields(next, rest + [Cut]), Yields(Leftover(next, rest), b));
    }
  }

  lemma ItemsJoin(a: seq<Item>, b: seq<Item>, c: seq<Item>)
    ensures a + (b + c) == a + b + c && [] + b == b
  {
  }

  lemma {:induction false} TakeAllGoesOn(sent: Sent, a: seq<Item>, b: seq<Item>, strip: string -> string)
    ensures TakeAll(sent, a + b, strip) == TakeAll(TakeAll(sent, a, strip), b, strip)
    decreases |a|
  {
    if a == [] {
      assert a + b == b;
    } else {
      assert (a + b)[1..] == a[1..] + b;
      TakeAllGoesOn(Take(sent, a[0], strip), a[1..], b, strip);
    }
  }

  lemma {:induction false} ForwardedStays(sent: Sent, items: seq<Item>, strip: string -> string)
    ensures sent.forwarded <= TakeAll(sent, items, strip).forwarded
    decreases |items|
  {
    if items != [] {
      ForwardedStays(Take(sent, items[0], strip), items[1..], strip);
    }
  }

  lemma CutText(a: seq<Arrival>)
    requires Cut !in a
    ensures Text(a + [Cut]) == Text(a)
  {
    if a != [] {
      assert a[0] in a && (a + [Cut])[1..] == a[1..] + [Cut];
      CutText(a[1..]);
    }
  }

  /** At a pause the batch in hand goes out: all complete lines seen so far are then forwarded. */
  lemma PauseEmpties(a: seq<Arrival>, strip: string -> string) returns (sent: Sent)
    requires Cut !in a
    ensures sent == TakeAll(Sent([], []), Yields("", a + [Cut]) + [Pause], strip)
    ensures sent.batch == [] && Concat(sent.forwarded) == Stripped(CompleteLines(Text(a)), strip)
  {
    var items := Yields("", a + [Cut]);
    YieldsItems("", a + [Cut]);
    YieldsLines("", a + [Cut]);
    CutText(a);
    assert "" + Text(a) == Text(a) && [] + LinesIn(items) == LinesIn(items);
    TakeAllForwards(Sent([], []), items, strip, [], 0);
    var all := TakeAll(Sent([], []), items, strip);
    TakePauseForwards(all, strip, LinesIn(items), Pauses(items));
    TakeAllGoesOn(Sent([], []), items, [Pause], strip);
    sent := Take(all, Pause, strip);
    assert [Pause][1..] == [];
    assert Concat(sent.forwarded) + [] == Concat(sent.forwarded);
  }

  /** Whenever a receive call times out, every complete line received until then goes out, whatever happens later. */
  lemma TimeOutSendsAll(before: seq<Receipt>, after: seq<Receipt>, strip: string -> string,
                        forwarded: seq<seq<string>>, completed: bool, lost: seq<string>) returns (n: nat)
    requires Flowing(before) && Handled(before + [TimedOut] + after, strip, forwarded, completed, lost)
    ensures n <= |forwarded| && Concat(forwarded[..n]) == Stripped(CompleteLines(Pieces(before)), strip)
  {
    var a, b := Arriving(before), Arriving(after);
    assert before + [TimedOut] + after == before + ([TimedOut] + after) && ([TimedOut] + after)[1..] == after;
    FlowArrives(before, [TimedOut] + after);
    YieldsGoOn("", a, [Gap] + b);
    var partial := Leftover("", a);
    assert ([Gap] + b)[1..] == b;
    ItemsJoin(Yields("", a + [Cut]), [Pause], Yields(partial, b));
    var sent := PauseEmpties(a, strip);
    TakeAllGoesOn(Sent([], []), Yields("", a + [Cut]) + [Pause], Yields(partial, b), strip);
    ForwardedStays(sent, Yields(partial, b), strip);
    n := |sent.forwarded|;
    assert forwarded[..n] == sent.forwarded;
  }

  /**
   * How a connection ends. Closed by the client, all lines sent over it are forwarded, the last even without
   * its newline; cut off by a failing call, the complete ones are forwarded or lost.
   */
  lemma EndOfConnection(before: seq<Receipt>, end: Receipt, after: seq<Receipt>, strip: string -> string,
                        forwarded: seq<seq<string>>, completed: bool, lost: seq<string>)
    requires Flowing(before) && (end.Failed? || end == Data(""))
    requires Handled(before + [end] + after, strip, forwarded, completed, lost)
    ensures completed <==> !end.Failed?
    ensures end.Failed? ==> Concat(forwarded) + lost == Stripped(CompleteLines(Pieces(before)), strip)
    ensures !end.Failed? ==> lost == [] && Concat(forwarded) == Stripped(Lines(Pieces(before)), strip)
  {
    var receipts, a := before + [end] + after, Arriving(before);
    assert receipts == before + ([end] + after) && ([end] + after)[0] == end;
    FlowArrives(before, [end] + after);
    HandledForwards(receipts, strip, forwarded, completed, lost);
    if end.Failed? {
      CutText(a);
    } else {
      assert a + [] == a && Concat(forwarded) + [] == Concat(forwarded);
    }
  }

  lemma {:induction false} NoGaps(s: string, arrivals: seq<Arrival>)
    ensures Gaps(Bytes(s) + arrivals) == Gaps(arrivals)
    decreases |s|
  {
    if s == "" {
      assert Bytes(s) + arrivals == arrivals;
    } else {
      assert (Bytes(s) + arrivals)[1..] == Bytes(s[1..]) + arrivals;
      NoGaps(s[1..], arrivals);
    }
  }

  lemma {:induction false} NoTimeouts(before: seq<Receipt>, end: Receipt, after: seq<Receipt>)
    requires (forall receipt | receipt in before :: receipt.Data?) && (end.Failed? || end == Data(""))
    ensures Timeouts(before + [end] + after) == 0
    decreases |before|
  {
    var receipts := before + [end] + after;
    if before != [] && before[0] != Data("") {
      assert before[0] in before && receipts[1..] == before[1..] + [end] + after;
      NoTimeouts(before[1..], end, after);
      NoGaps(before[0].bytes, Arriving(receipts[1..]));
    }
  }

  /** Without time-outs a batch has 200 lines, but for one sent at the end. */
  lemma FullBatches(before: seq<Receipt>, end: Receipt, after: seq<Receipt>, strip: string -> string,
                    forwarded: seq<seq<string>>, completed: bool, lost: seq<string>)
    requires Flowing(before) && (forall receipt | receipt in before :: receipt.Data?)
    requires end.Failed? || end == Data("")
    requires Handled(before + [end] + after, strip, forwarded, completed, lost)
    ensures forall b | b in forwarded :: 1 <= |b| <= 200
    ensures completed ==> 200 * (|forwarded| - 1) <= |Concat(forwarded)|
    ensures !completed ==> 200 * |forwarded| <= |Concat(forwarded)| + |lost|
  {
    NoTimeouts(before, end, after);
    HandledForwards(before + [end] + after, strip, forwarded, completed, lost);
    assert |Concat(forwarded) + lost| == |Concat(forwarded)| + |lost|;
  }

  /** The complete lines are all lines but a last one without newline. */
  lemma {:induction false} CompleteLinesAre(s: string)
    ensures CompleteLines(s)
         == if s == "" || s[|s| - 1] == '\n' then Lines(s) else Lines(s)[..|Lines(s)| - 1]
    decreases |s|
  {
    if Eol(s) < |s| {
      CompleteLinesAre(s[Eol(s) + 1..]);
    }
  }

  // ----- pieces -----

  /** Cutting a piece in two changes nothing of what arrives. */
  lemma {:induction false} PieceCut(before: seq<Receipt>, a: string, b: string, after: seq<Receipt>)
    requires a != "" && b != ""
    ensures Arriving(before + [Data(a + b)] + after) == Arriving(before + [Data(a), Data(b)] + after)
    decreases |before|
  {
    var whole, pieces := before + [Data(a + b)] + after, before + [Data(a), Data(b)] + after;
    if before == [] {
      assert whole[1..] == after && pieces[1..] == [Data(b)] + after && pieces[1..][1..] == after;
      BytesJoin(a, b, Arriving(after));
    } else {
      assert whole[1..] == before[1..] + [Data(a + b)] + after;
      assert pieces[1..] == before[1..] + [Data(a), Data(b)] + after;
      PieceCut(before[1..], a, b, after);
    }
  }

  /**
   * What is forwarded and lost, batch by batch, depends only on the bytes and where the pauses and the
   * failure fall among them; the lines forwarded of a stream that does not fail, on its bytes alone.
   */
  lemma PiecesDoNotMatter(a: seq<Receipt>, b: seq<Receipt>, strip: string -> string,
                          forwarded: seq<seq<string>>, completed: bool, lost: seq<string>,
                          forwarded': seq<seq<string>>, completed': bool, lost': seq<string>)
    requires Handled(a, strip, forwarded, completed, lost) && Handled(b, strip, forwarded', completed', lost')
    ensures Arriving(a) == Arriving(b) ==> forwarded == forwarded' && completed == completed' && lost == lost'
    ensures !Fails(a) && !Fails(b) && StreamOf(a) == StreamOf(b) ==>
      Concat(forwarded) == Concat(forwarded') == Stripped(Lines(StreamOf(a)), strip)
  {
    HandledForwards(a, strip, forwarded, completed, lost);
    HandledForwards(b, strip, forwarded', completed', lost');
    assert Concat(forwarded) + [] == Concat(forwarded) && Concat(forwarded') + [] == Concat(forwarded');
  }
}
