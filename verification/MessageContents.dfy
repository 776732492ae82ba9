/** What a cell execution hands over, read off the contents of the kernel's messages
    (frontend/packages/notebook/src/adapters/services/kernel.ts). */
module MessageContents {
  import opened Common
  import opened Json
  import opened Outputs
  import opened KernelMessages
  import opened OutputAgreement

  // ---------------------------------------------------------------------------------------------
  // The messages that count.

  predicate IsOutput(e: Event) {
    e.Message? && e.msgType in {"stream", "display_data", "update_display_data", "execute_result", "error"}
  }

  predicate IsErrorReply(e: Event) {
    e.Message? && e.msgType == "execute_reply" && "status" in e.content && e.content["status"] == Str("error")
  }

  predicate IsClear(e: Event, wait: bool) {
    && e.Message? && e.msgType == "clear_output"
    && (wait <==> "wait" in e.content && e.content["wait"] == Bool(true))
  }

  /** A clear waits for the next output. */
  predicate Waiting(events: seq<Event>)
    decreases |events|
  {
    if events == [] then false
    else
      var e := events[|events| - 1];
      if IsOutput(e) then false else IsClear(e, true) || Waiting(events[..|events| - 1])
  }

  /** Among the messages since the last effective clear, those that show something: every output, and an error
      reply when none of the others is an error. */
  function Producing(events: seq<Event>): (r: seq<Event>)
    ensures forall i :: 0 <= i < |r| ==> IsOutput(r[i]) || IsErrorReply(r[i])
    decreases |events|
  {
    if events == [] then []
    else
      var front, e := events[..|events| - 1], events[|events| - 1];
      if IsClear(e, false) then []
      else if IsOutput(e) then (if Waiting(front) then [] else Producing(front)) + [e]
      else if IsErrorReply(e) && NoError(Producing(front)) then Producing(front) + [e]
      else Producing(front)
  }

  predicate NoError(messages: seq<Event>) {
    forall i :: 0 <= i < |messages| ==> messages[i].Message? && messages[i].msgType !in {"error", "execute_reply"}
  }

  /** String() of a field, with a default for an absent or null one. */
  function StringAt(content: Record, name: string, default: string, str: ToString): string {
    if name !in content || content[name] == Null then default else str(content[name])
  }

  predicate IsNumber(value: Json) {
    value.Int? || value.Float?
  }

  // ---------------------------------------------------------------------------------------------
  // What a message shows.

  predicate ShowsStream(o: Output, content: Record, str: ToString) {
    && o.Stream? && o.name in {"stdout", "stderr"} && TextOf(o.text) == StringAt(content, "text", "", str)
    && (o.name == "stderr" <==> "name" in content && content["name"] == Str("stderr"))
  }

  predicate ShowsError(o: Output, content: Record, str: ToString) {
    && o.Error?
    && o.ename == StringAt(content, "ename", "Error", str) && o.evalue == StringAt(content, "evalue", "", str)
    && (if "traceback" in content && content["traceback"].Arr? then
          && |o.traceback| == |content["traceback"].items|
          && forall i :: 0 <= i < |o.traceback| ==> o.traceback[i] == str(content["traceback"].items[i])
        else o.traceback == [])
  }

  predicate ShowsDisplay(o: Output, msgType: string, content: Record) {
    && o.Display?
    && (o.kind == DisplayData <==> msgType == "display_data")
    && (o.kind == ExecuteResult <==> msgType == "execute_result")
    && (o.kind == UpdateDisplay <==> msgType == "update_display_data")
    && o.data == (if "data" in content && content["data"].Obj? then content["data"].fields else map[])
    && o.metadata ==
       Some(if "metadata" in content && content["metadata"].Obj? then content["metadata"].fields else map[])
    && (if "execution_count" in content && IsNumber(content["execution_count"])
        then o.executionCount == Some(content["execution_count"]) else o.executionCount == None)
    && (if "transient" in content && content["transient"].Obj?
        then o.transient == Some(content["transient"].fields) else o.transient == None)
  }

  /** The output shows what the message says. */
  predicate Shows(o: Output, e: Event, str: ToString) {
    && e.Message?
    && if e.msgType == "stream" then ShowsStream(o, e.content, str)
       else if e.msgType in {"error", "execute_reply"} then ShowsError(o, e.content, str)
       else ShowsDisplay(o, e.msgType, e.content)
  }

  lemma ReadsMessage(e: Event, str: ToString)
    requires e.Message?
    ensures IsOutput(e) <==> OutputOf(e.msgType, e.content, str).Some?
    ensures IsOutput(e) ==> Shows(OutputOf(e.msgType, e.content, str).value, e, str)
  {
  }

  lemma ReadsReply(e: Event, str: ToString)
    requires IsErrorReply(e)
    ensures Shows(ErrorOf(e.content, str), e, str)
  {
  }

  /** The outputs show the messages, one by one. */
  ghost predicate ShowAll(raw: seq<Output>, messages: seq<Event>, str: ToString) {
    |raw| == |messages| && forall i :: 0 <= i < |raw| ==> Shows(raw[i], messages[i], str)
  }

  lemma ShowOneMore(raw: seq<Output>, messages: seq<Event>, o: Output, e: Event, str: ToString)
    requires ShowAll(raw, messages, str) && Shows(o, e, str)
    ensures ShowAll(raw + [o], messages + [e], str) && ShowAll([o], [e], str)
  {
  }

  lemma SameErrors(raw: seq<Output>, messages: seq<Event>, str: ToString)
    requires ShowAll(raw, messages, str)
    ensures HasError(raw) <==> !NoError(messages)
  {
    if i :| 0 <= i < |raw| && raw[i].Error? {
      assert Shows(raw[i], messages[i], str);
    }
    if !NoError(messages) {
      var i :| 0 <= i < |messages| && !(messages[i].Message? && messages[i].msgType !in {"error", "execute_reply"});
      assert Shows(raw[i], messages[i], str);
    }
  }

  // ---------------------------------------------------------------------------------------------
  // Runs.

  /** The execution is open at every event. */
  ghost predicate Listening(events: seq<Event>, str: ToString) {
    forall n :: 0 <= n < |events| ==> Run(events[..n], str).settled == Pending
  }

  lemma ListeningFront(events: seq<Event>, str: ToString)
    requires Listening(events, str) && events != []
    ensures Listening(events[..|events| - 1], str) && Run(events[..|events| - 1], str).settled == Pending
  {
    var front := events[..|events| - 1];
    forall n | 0 <= n < |front|
      ensures Run(front[..n], str).settled == Pending
    {
      assert front[..n] == events[..n];
      assert Run(events[..n], str).settled == Pending;
    }
  }

  lemma ReceivedNext(r: Received, messages: seq<Event>, waits: bool, e: Event, str: ToString)
    requires ShowAll(r.raw, messages, str) && r.clearWaits == waits
    ensures var r' := Receive(r, e, str);
            && ShowAll(r'.raw,
                       if IsClear(e, false) then []
                       else if IsOutput(e) then (if waits then [] else messages) + [e]
                       else if IsErrorReply(e) && NoError(messages) then messages + [e]
                       else messages, str)
            && r'.clearWaits == (!IsOutput(e) && (IsClear(e, true) || waits))
  {
    if e.Message? {
      ReadsMessage(e, str);
      if IsOutput(e) {
        ShowOneMore(r.raw, messages, OutputOf(e.msgType, e.content, str).value, e, str);
      } else if IsErrorReply(e) {
        ReadsReply(e, str);
        SameErrors(r.raw, messages, str);
        ShowOneMore(r.raw, messages, ErrorOf(e.content, str), e, str);
      }
    }
  }

  /** What has been received are the outputs of the messages that count, in order, field by field. */
  lemma {:induction false} ReceivedExactly(events: seq<Event>, str: ToString)
    requires Listening(events, str) && forall i :: 0 <= i < |events| ==> !events[i].Timeout?
    ensures var r := Run(events, str).received;
            ShowAll(r.raw, Producing(events), str) && r.clearWaits == Waiting(events)
    decreases |events|
  {
    if events != [] {
      var front, e := events[..|events| - 1], events[|events| - 1];
      ListeningFront(events, str);
      ReceivedExactly(front, str);
      ReceivedNext(Run(front, str).received, Producing(front), Waiting(front), e, str);
    }
  }

  /** An accumulated list holds only what was received. */
  lemma {:induction false} AccumulatedFrom(raw: seq<Output>, o: Output)
    requires o in Accumulate(raw)
    ensures o in raw
    decreases |raw|
  {
    if raw != [] {
      var front, last := raw[..|raw| - 1], raw[|raw| - 1];
      assert raw == front + [last];
      if o != last {
        PlacedFrom(Accumulate(front), last, o);
        AccumulatedFrom(front, o);
      }
    }
  }

  lemma PlacedFrom(outputs: seq<Output>, last: Output, o: Output)
    requires o in Place(outputs, last) && o != last
    ensures o in outputs
  {
  }

  /** Every output that is handed over shows one of the messages since the last effective clear. */
  lemma HandedOverShows(events: seq<Event>, str: ToString, o: Output)
    requires Listening(events, str) && Run(events, str).settled.Resolved? && o in Run(events, str).settled.outputs
    ensures exists e <- Producing(events) :: Shows(o, e, str)
  {
    NoTimeout(events, str);
    ReceivedExactly(events, str);
    ResolvedOutputs(events, str);
    AccumulatedFrom(Run(events, str).received.raw, o);
    var raw, messages := Run(events, str).received.raw, Producing(events);
    var i :| 0 <= i < |raw| && raw[i] == o;
    assert Shows(raw[i], messages[i], str) && messages[i] in messages;
  }

  lemma NoTimeout(events: seq<Event>, str: ToString)
    requires Listening(events, str) && !Run(events, str).settled.TimedOut?
    ensures forall i :: 0 <= i < |events| ==> !events[i].Timeout?
  {
    if i :| 0 <= i < |events| && events[i].Timeout? {
      TimeoutSettles(events, i, str);
      assert false;
    }
  }

  lemma TimeoutSettles(events: seq<Event>, i: nat, str: ToString)
    requires Listening(events, str) && i < |events| && events[i].Timeout?
    ensures Run(events, str).settled.TimedOut?
  {
    RunMore(events, i, str);
    assert Run(events[..i], str).settled == Pending;
    SettledForGood(events, i + 1, str);
  }

  // ---------------------------------------------------------------------------------------------
  // Printed text.

  predicate IsStderr(content: Record) {
    "name" in content && content["name"] == Str("stderr")
  }

  /** The texts of the stream messages, those of stderr or the others, one after the other. */
  function Printed(messages: seq<Event>, stderr: bool, str: ToString): string
    decreases |messages|
  {
    if messages == [] then ""
    else
      var e := messages[|messages| - 1];
      Printed(messages[..|messages| - 1], stderr, str) +
      if e.Message? && e.msgType == "stream" && IsStderr(e.content) == stderr then StringAt(e.content, "text", "", str)
      else ""
  }

  lemma {:induction false} RawPrinted(raw: seq<Output>, messages: seq<Event>, str: ToString)
    requires ShowAll(raw, messages, str)
    ensures StreamText(raw, "stderr") == Printed(messages, true, str)
    ensures StreamText(raw, "stdout") == Printed(messages, false, str)
    decreases |raw|
  {
    if raw != [] {
      var n := |raw| - 1;
      assert Shows(raw[n], messages[n], str);
      assert ShowAll(raw[..n], messages[..n], str) by {
        forall i | 0 <= i < n
          ensures Shows(raw[..n][i], messages[..n][i], str)
        {
          assert Shows(raw[i], messages[i], str);
        }
      }
      RawPrinted(raw[..n], messages[..n], str);
    }
  }

  lemma PlaceText(outputs: seq<Output>, o: Output, name: string)
    ensures StreamText(Place(outputs, o), name) ==
            StreamText(outputs, name) + if o.Stream? && o.name == name then TextOf(o.text) else ""
  {
    var target := if IsUpdate(o) && DisplayIdOf(o).Some? then LastIndex(outputs, DisplayIdOf(o).value) else |outputs|;
    if target < |outputs| {
      LastIndexFinds(outputs, DisplayIdOf(o).value);
      DisplaySilent(outputs, target, o, name);
    } else {
      assert Place(outputs, o)[..|outputs|] == outputs;
    }
  }

  lemma {:induction false} AccumulatedText(raw: seq<Output>, name: string)
    ensures StreamText(Accumulate(raw), name) == StreamText(raw, name)
    decreases |raw|
  {
    if raw != [] {
      AccumulatedText(raw[..|raw| - 1], name);
      PlaceText(Accumulate(raw[..|raw| - 1]), raw[|raw| - 1], name);
    }
  }

  /** The text handed over under `stderr` is that of the stream messages since the last effective clear whose
      name is `stderr`, in order; under `stdout` it is that of all others. */
  lemma PrintedExactly(events: seq<Event>, str: ToString)
    requires Listening(events, str) && Run(events, str).settled.Resolved?
    ensures var outputs := Run(events, str).settled.outputs;
            && StreamText(outputs, "stderr") == Printed(Producing(events), true, str)
            && StreamText(outputs, "stdout") == Printed(Producing(events), false, str)
  {
    NoTimeout(events, str);
    ReceivedExactly(events, str);
    ResolvedOutputs(events, str);
    var raw := Run(events, str).received.raw;
    AccumulatedText(raw, "stderr");
    AccumulatedText(raw, "stdout");
    RawPrinted(raw, Producing(events), str);
  }

  // ---------------------------------------------------------------------------------------------
  // The execution count.

  /** The number in the last `execute_input` or `execute_reply` that has one. */
  function CountIn(events: seq<Event>): Option<Json>
    decreases |events|
  {
    if events == [] then None
    else
      var e := events[|events| - 1];
      if e.Message? && e.msgType in {"execute_input", "execute_reply"} && "execution_count" in e.content
         && IsNumber(e.content["execution_count"])
      then Some(e.content["execution_count"])
      else CountIn(events[..|events| - 1])
  }

  lemma {:induction false} CountExactly(events: seq<Event>, str: ToString)
    requires Listening(events, str) && forall i :: 0 <= i < |events| ==> !events[i].Timeout?
    ensures Run(events, str).executionCount == CountIn(events)
    decreases |events|
  {
    if events != [] {
      ListeningFront(events, str);
      CountExactly(events[..|events| - 1], str);
    }
  }

  /** And the promise is resolved with it. */
  lemma CountHandedOver(events: seq<Event>, str: ToString)
    requires Listening(events, str) && Run(events, str).settled.Resolved?
    ensures Run(events, str).settled.executionCount == CountIn(events)
  {
    NoTimeout(events, str);
    CountExactly(events, str);
    ResolvedOutputs(events, str);
  }

  // ---------------------------------------------------------------------------------------------
  // Where the window begins.

  /** No output has come since event `j`. */
  predicate Silent(events: seq<Event>, j: int) {
    forall m :: 0 <= m < |events| && j < m ==> !IsOutput(events[m])
  }

  predicate WaitsSince(events: seq<Event>, j: int) {
    0 <= j < |events| && IsClear(events[j], true) && Silent(events, j)
  }

  lemma SilentMore(front: seq<Event>, e: Event, j: int)
    requires j < |front|
    ensures Silent(front + [e], j) <==> Silent(front, j) && !IsOutput(e)
  {
    var events := front + [e];
    assert events[|front|] == e;
    if Silent(events, j) {
      forall m | 0 <= m < |front| && j < m ensures !IsOutput(front[m]) { assert !IsOutput(events[m]); }
    }
  }

  /** A clear waits exactly when one that asked to wait has come after the last output. */
  lemma {:induction false} WaitingExactly(events: seq<Event>)
    ensures Waiting(events) <==> exists j :: WaitsSince(events, j)
    decreases |events|
  {
    if events != [] {
      var n := |events| - 1;
      var front, e := events[..n], events[n];
      assert events == front + [e];
      WaitingExactly(front);
      if Waiting(events) && IsClear(e, true) {
        assert WaitsSince(events, n);
      } else if Waiting(events) {
        var j :| WaitsSince(front, j);
        SilentMore(front, e, j);
        assert WaitsSince(events, j);
      }
      if j :| WaitsSince(events, j) && j < n {
        SilentMore(front, e, j);
        assert WaitsSince(front, j);
      }
    }
  }

  /** A clear takes effect: at once, or in front of the output it has waited for. */
  predicate ClearedAt(events: seq<Event>, m: nat)
    requires m < |events|
  {
    IsClear(events[m], false) || (IsOutput(events[m]) && Waiting(events[..m]))
  }

  /** Where the last clear took effect. */
  function WindowStart(events: seq<Event>): (from: nat)
    ensures from <= |events|
    decreases |events|
  {
    if events == [] then 0
    else if ClearedAt(events, |events| - 1) then |events| - 1
    else WindowStart(events[..|events| - 1])
  }

  function OutputsOnly(events: seq<Event>): seq<Event>
    decreases |events|
  {
    if events == [] then []
    else
      var front, e := OutputsOnly(events[..|events| - 1]), events[|events| - 1];
      if IsOutput(e) then front + [e] else front
  }

  lemma OutputsMore(front: seq<Event>, e: Event)
    ensures OutputsOnly(front + [e]) == if IsOutput(e) then OutputsOnly(front) + [e] else OutputsOnly(front)
  {
    assert (front + [e])[..|front|] == front;
  }

  lemma ProducingMore(front: seq<Event>, e: Event)
    ensures Producing(front + [e]) ==
            if IsClear(e, false) then []
            else if IsOutput(e) then (if Waiting(front) then [] else Producing(front)) + [e]
            else if IsErrorReply(e) && NoError(Producing(front)) then Producing(front) + [e]
            else Producing(front)
  {
    assert (front + [e])[..|front|] == front;
  }

  lemma WindowMore(front: seq<Event>, e: Event)
    ensures var cleared := IsClear(e, false) || (IsOutput(e) && Waiting(front));
            (front + [e])[WindowStart(front + [e])..] == (if cleared then [] else front[WindowStart(front)..]) + [e]
  {
    var events := front + [e];
    assert events[..|front|] == front && events[|front|] == e;
    assert events[|front|..] == [e] && events[WindowStart(front)..] == front[WindowStart(front)..] + [e];
  }

  /** The next list of messages that count, and the next window. */
  function NextProducing(messages: seq<Event>, waits: bool, e: Event): seq<Event> {
    if IsClear(e, false) then []
    else if IsOutput(e) then (if waits then [] else messages) + [e]
    else if IsErrorReply(e) && NoError(messages) then messages + [e]
    else messages
  }

  function NextWindow(window: seq<Event>, waits: bool, e: Event): seq<Event> {
    (if IsClear(e, false) || (IsOutput(e) && waits) then [] else window) + [e]
  }

  lemma NextOutputs(messages: seq<Event>, window: seq<Event>, waits: bool, e: Event)
    requires OutputsOnly(messages) == OutputsOnly(window)
    ensures OutputsOnly(NextProducing(messages, waits, e)) == OutputsOnly(NextWindow(window, waits, e))
  {
    if IsOutput(e) {
      OutputMore(if waits then [] else messages, if waits then [] else window, e);
    } else {
      NoOutputMore([], e);
      NoOutputMore(messages, e);
      NoOutputMore(window, e);
    }
  }

  lemma NoOutputMore(messages: seq<Event>, e: Event)
    requires !IsOutput(e)
    ensures OutputsOnly(messages + [e]) == OutputsOnly(messages)
  {
    OutputsMore(messages, e);
  }

  lemma OutputMore(messages: seq<Event>, window: seq<Event>, e: Event)
    requires OutputsOnly(messages) == OutputsOnly(window) && IsOutput(e)
    ensures OutputsOnly(messages + [e]) == OutputsOnly(window + [e]) && !IsClear(e, false) && !IsErrorReply(e)
  {
    OutputsMore(messages, e);
    OutputsMore(window, e);
  }

  lemma WindowStep(front: seq<Event>, e: Event)
    requires OutputsOnly(Producing(front)) == OutputsOnly(front[WindowStart(front)..])
    ensures OutputsOnly(Producing(front + [e])) == OutputsOnly((front + [e])[WindowStart(front + [e])..])
  {
    var messages, window := Producing(front), front[WindowStart(front)..];
    assert Producing(front + [e]) == NextProducing(messages, Waiting(front), e) by { ProducingMore(front, e); }
    assert (front + [e])[WindowStart(front + [e])..] == NextWindow(window, Waiting(front), e) by {
      WindowMore(front, e);
    }
    NextOutputs(messages, window, Waiting(front), e);
  }

  /** The outputs that count are all those from the last effective clear on. */
  lemma {:induction false} WindowExactly(events: seq<Event>)
    ensures OutputsOnly(Producing(events)) == OutputsOnly(events[WindowStart(events)..])
    decreases |events|
  {
    if events == [] {
      assert events[0..] == [];
    } else {
      var n := |events| - 1;
      WindowExactly(events[..n]);
      WindowStep(events[..n], events[n]);
      assert events == events[..n] + [events[n]];
    }
  }
}
