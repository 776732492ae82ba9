/** One cell execution as the kernel's messages drive it
    (frontend/packages/notebook/src/adapters/services/kernel.ts). */
module KernelMessages {
  import opened Common
  import opened Json
  import opened Outputs

  /** What the socket and the timer deliver. Noise is anything that is not JSON or belongs to another
      request; every other message carries its type and its content object. */
  datatype Event =
    | Noise
    | Timeout
    | Message(msgType: string, content: Record)

  datatype Settled = Pending | Resolved(executionCount: Option<Json>, outputs: seq<Output>) | TimedOut

  // ---------------------------------------------------------------------------------------------
  // Reading a message. `str` is the language's String().

  type ToString = Json -> string

  function StringField(content: Record, name: string, default: string, str: ToString): string {
    match Field(content, name)
    case None => default
    case Some(Null) => default
    case Some(value) => str(value)
  }

  /** The field's value if it is an object. */
  function RecordAt(content: Record, name: string): Option<Record> {
    if IsObject(Field(content, name)) then Some(AsRecord(Field(content, name))) else None
  }

  function Number(content: Record, name: string): Option<Json> {
    match Field(content, name)
    case Some(Int(i)) => Some(Int(i))
    case Some(Float(r)) => Some(Float(r))
    case _ => None
  }

  function StreamOf(content: Record, str: ToString): Output {
    Stream(if Field(content, "name") == Some(Str("stderr")) then "stderr" else "stdout",
           Whole(StringField(content, "text", "", str)))
  }

  function ErrorOf(content: Record, str: ToString): Output {
    Error(StringField(content, "ename", "Error", str), StringField(content, "evalue", "", str),
          match Field(content, "traceback")
          case Some(Arr(items)) => seq(|items|, i requires 0 <= i < |items| => str(items[i]))
          case _ => [])
  }

  function KindOf(msgType: string): DisplayKind {
    if msgType == "display_data" then DisplayData
    else if msgType == "execute_result" then ExecuteResult
    else UpdateDisplay
  }

  function DisplayOf(msgType: string, content: Record): Output {
    Display(KindOf(msgType),
            AsRecord(Field(content, "data")), Some(AsRecord(Field(content, "metadata"))),
            Number(content, "execution_count"), RecordAt(content, "transient"))
  }

  /** The output a message produces, if it is an output message. */
  function OutputOf(msgType: string, content: Record, str: ToString): Option<Output> {
    if msgType == "stream" then Some(StreamOf(content, str))
    else if msgType in {"display_data", "update_display_data", "execute_result"} then Some(DisplayOf(msgType, content))
    else if msgType == "error" then Some(ErrorOf(content, str))
    else None
  }

  predicate HasError(outputs: seq<Output>) {
    exists i :: 0 <= i < |outputs| && outputs[i].Error?
  }

  // ---------------------------------------------------------------------------------------------
  // The specification: the list the messages accumulate, as a fold of single placements.

  /** The last output that carries the id, or the end of the list. */
  function LastIndex(outputs: seq<Output>, id: string): (i: nat)
    ensures i <= |outputs|
    decreases |outputs|
  {
    if outputs == [] then 0
    else
      var n := |outputs| - 1;
      if DisplayIdOf(outputs[n]) == Some(id) then n
      else
        var i := LastIndex(outputs[..n], id);
        if i == n then |outputs| else i
  }

  lemma {:induction false} LastIndexFinds(outputs: seq<Output>, id: string)
    ensures var i := LastIndex(outputs, id);
            && (i < |outputs| ==> DisplayIdOf(outputs[i]) == Some(id))
            && (forall j :: i < j < |outputs| ==> DisplayIdOf(outputs[j]) != Some(id))
            && (i == |outputs| ==> forall j :: 0 <= j < |outputs| ==> DisplayIdOf(outputs[j]) != Some(id))
    decreases |outputs|
  {
    if outputs != [] {
      LastIndexFinds(outputs[..|outputs| - 1], id);
    }
  }

  /** An update goes to the last output with its id; everything else to the end. */
  function Place(outputs: seq<Output>, o: Output): seq<Output> {
    var target := if IsUpdate(o) && DisplayIdOf(o).Some? then LastIndex(outputs, DisplayIdOf(o).value) else |outputs|;
    if target < |outputs| then outputs[target := o] else outputs + [o]
  }

  function Accumulate(raw: seq<Output>): seq<Output>
    decreases |raw|
  {
    if raw == [] then [] else Place(Accumulate(raw[..|raw| - 1]), raw[|raw| - 1])
  }

  /** The raw outputs since the last effective clear, and whether a clear is waiting for the next one. */
  datatype Received = Received(raw: seq<Output>, clearWaits: bool)

  function Receive(r: Received, e: Event, str: ToString): Received {
    if !e.Message? then r
    else
      var output := OutputOf(e.msgType, e.content, str);
      if output.Some? then Received((if r.clearWaits then [] else r.raw) + [output.value], false)
      else if e.msgType == "clear_output" then
        if Field(e.content, "wait") == Some(Bool(true)) then r.(clearWaits := true) else r.(raw := [])
      else if e.msgType == "execute_reply" && Field(e.content, "status") == Some(Str("error")) && !HasError(r.raw) then
        r.(raw := r.raw + [ErrorOf(e.content, str)])
      else r
  }

  predicate IsReply(e: Event) {
    e.Message? && e.msgType == "execute_reply"
  }

  predicate IsIdle(e: Event) {
    e.Message? && e.msgType == "status" && Field(e.content, "execution_state") == Some(Str("idle"))
  }

  /** The execution count after a message that may carry one. */
  function CountWith(count: Option<Json>, content: Record): Option<Json> {
    if Number(content, "execution_count").Some? then Number(content, "execution_count") else count
  }

  function CountAfter(count: Option<Json>, e: Event): Option<Json> {
    if e.Message? && e.msgType in {"execute_input", "execute_reply"} then CountWith(count, e.content) else count
  }

  /** How far an execution has come: what was received, and how the promise was settled. */
  datatype Progress = Progress(
    received: Received,
    executionCount: Option<Json>,
    replied: bool,
    idle: bool,
    settled: Settled)

  const START := Progress(Received([], false), None, false, false, Pending)

  /** One event. The promise resolves, with the accumulated outputs, as soon as both the reply and the idle
      status have come; a settled execution has no listener and no timer left. */
  function Advance(p: Progress, e: Event, str: ToString): Progress {
    if p.settled != Pending || e.Noise? then p
    else if e.Timeout? then p.(settled := TimedOut)
    else
      var received, count := Receive(p.received, e, str), CountAfter(p.executionCount, e);
      var replied, idle := p.replied || IsReply(e), p.idle || IsIdle(e);
      Progress(received, count, replied, idle,
               if replied && idle then Resolved(count, Accumulate(received.raw)) else Pending)
  }

  // ---------------------------------------------------------------------------------------------
  // The code's own form.

  /** `displayIds` holds, for exactly the ids some output carries, the last such output. */
  ghost predicate IndexOk(outputs: seq<Output>, displayIds: map<string, nat>) {
    forall id :: if id in displayIds then displayIds[id] == LastIndex(outputs, id) < |outputs|
                 else LastIndex(outputs, id) == |outputs|
  }

  lemma LastIndexIs(outputs: seq<Output>, id: string, i: nat)
    requires i < |outputs| && DisplayIdOf(outputs[i]) == Some(id)
    requires forall j :: i < j < |outputs| ==> DisplayIdOf(outputs[j]) != Some(id)
    ensures LastIndex(outputs, id) == i
  {
    LastIndexFinds(outputs, id);
  }

  lemma LastIndexMore(outputs: seq<Output>, o: Output, id: string)
    ensures LastIndex(outputs + [o], id) ==
            if DisplayIdOf(o) == Some(id) then |outputs|
            else if LastIndex(outputs, id) == |outputs| then |outputs| + 1
            else LastIndex(outputs, id)
  {
    assert (outputs + [o])[..|outputs|] == outputs;
  }

  /** An output put at the end, recorded under its id if it has one. */
  lemma AppendIndex(outputs: seq<Output>, displayIds: map<string, nat>, o: Output)
    requires IndexOk(outputs, displayIds)
    ensures DisplayIdOf(o).None? ==> IndexOk(outputs + [o], displayIds)
    ensures DisplayIdOf(o).Some? ==> IndexOk(outputs + [o], displayIds[DisplayIdOf(o).value := |outputs|])
  {
    forall id
      ensures LastIndex(outputs + [o], id) ==
              if DisplayIdOf(o) == Some(id) then |outputs|
              else if LastIndex(outputs, id) == |outputs| then |outputs| + 1
              else LastIndex(outputs, id)
    {
      LastIndexMore(outputs, o, id);
    }
  }

  lemma LastIndexSame(outputs: seq<Output>, i: nat, o: Output, id: string)
    requires i < |outputs| && DisplayIdOf(outputs[i]) == DisplayIdOf(o)
    ensures LastIndex(outputs[i := o], id) == LastIndex(outputs, id)
  {
    var l := LastIndex(outputs, id);
    LastIndexFinds(outputs, id);
    LastIndexFinds(outputs[i := o], id);
    if l < |outputs| {
      LastIndexIs(outputs[i := o], id, l);
    }
  }

  /** An update put over the last output with its id. */
  lemma ReplaceIndex(outputs: seq<Output>, displayIds: map<string, nat>, o: Output)
    requires IndexOk(outputs, displayIds) && DisplayIdOf(o).Some? && DisplayIdOf(o).value in displayIds
    ensures IndexOk(outputs[displayIds[DisplayIdOf(o).value] := o], displayIds)
  {
    var i := displayIds[DisplayIdOf(o).value];
    LastIndexFinds(outputs, DisplayIdOf(o).value);
    forall id
      ensures LastIndex(outputs[i := o], id) == LastIndex(outputs, id)
    {
      LastIndexSame(outputs, i, o, id);
    }
  }

  /** Placing an output changes no earlier output's id. */
  lemma PlacedIds(outputs: seq<Output>, o: Output)
    ensures |Place(outputs, o)| >= |outputs|
    ensures forall j :: 0 <= j < |outputs| ==> DisplayIdOf(Place(outputs, o)[j]) == DisplayIdOf(outputs[j])
    ensures forall j :: 0 <= j < |outputs| && DisplayIdOf(outputs[j]).None? ==> Place(outputs, o)[j] == outputs[j]
  {
    if DisplayIdOf(o).Some? {
      LastIndexFinds(outputs, DisplayIdOf(o).value);
    }
  }

  lemma PlaceError(outputs: seq<Output>, o: Output)
    ensures HasError(Place(outputs, o)) <==> HasError(outputs) || o.Error?
  {
    var after := Place(outputs, o);
    PlacedIds(outputs, o);
    if i :| 0 <= i < |outputs| && outputs[i].Error? {
      assert after[i].Error?;
    }
    if o.Error? {
      assert after[|outputs|].Error?;
    }
  }

  /** The accumulated list shows an error exactly when one was received. */
  lemma {:induction false} AccumulateError(raw: seq<Output>)
    ensures HasError(Accumulate(raw)) <==> HasError(raw)
    decreases |raw|
  {
    if raw != [] {
      var front, last := raw[..|raw| - 1], raw[|raw| - 1];
      AccumulateError(front);
      PlaceError(Accumulate(front), last);
      assert raw == front + [last];
      if i :| 0 <= i < |front| && front[i].Error? {
        assert raw[i].Error?;
      }
    }
  }

  lemma AccumulateMore(raw: seq<Output>, o: Output)
    ensures Accumulate(raw + [o]) == Place(Accumulate(raw), o)
  {
    assert (raw + [o])[..|raw|] == raw;
  }

  /** What is received with an error reply: the error is shown unless one already is. */
  function ReplyRaw(raw: seq<Output>, content: Record, str: ToString): seq<Output> {
    if Field(content, "status") == Some(Str("error")) && !HasError(raw) then raw + [ErrorOf(content, str)] else raw
  }

  function Replied(p: Progress, content: Record, str: ToString): Progress {
    var count := CountWith(p.executionCount, content);
    var raw := ReplyRaw(p.received.raw, content, str);
    Progress(Received(raw, p.received.clearWaits), count, true, p.idle,
             if p.idle then Resolved(count, Accumulate(raw)) else Pending)
  }

  lemma ReplyAdvances(p: Progress, content: Record, str: ToString)
    requires p.settled == Pending
    ensures Advance(p, Message("execute_reply", content), str) == Replied(p, content, str)
  {
  }

  /** An open execution that has not yet seen both the reply and the idle status. */
  predicate Open(p: Progress) {
    p.settled == Pending && !(p.replied && p.idle)
  }

  lemma OutputAdvances(p: Progress, msgType: string, content: Record, str: ToString)
    requires Open(p) && OutputOf(msgType, content, str).Some?
    ensures Advance(p, Message(msgType, content), str) ==
            p.(received := Received((if p.received.clearWaits then [] else p.received.raw)
                                    + [OutputOf(msgType, content, str).value], false))
  {
  }

  lemma ClearAdvances(p: Progress, content: Record, str: ToString)
    requires Open(p)
    ensures Advance(p, Message("clear_output", content), str) ==
            p.(received := if Field(content, "wait") == Some(Bool(true)) then p.received.(clearWaits := true)
                           else p.received.(raw := []))
  {
  }

  lemma InputAdvances(p: Progress, content: Record, str: ToString)
    requires Open(p)
    ensures Advance(p, Message("execute_input", content), str) ==
            p.(executionCount := CountWith(p.executionCount, content))
  {
  }

  lemma OthersAdvance(p: Progress, msgType: string, content: Record, str: ToString)
    requires Open(p) && OutputOf(msgType, content, str).None?
    requires msgType !in {"status", "execute_input", "clear_output", "execute_reply"}
    ensures Advance(p, Message(msgType, content), str) == p
  {
  }

  /** A status message, idle or not. */
  function Noted(p: Progress, idle: bool): Progress {
    var now := p.idle || idle;
    p.(idle := now, settled := if p.replied && now then Resolved(p.executionCount, Accumulate(p.received.raw))
                               else Pending)
  }

  lemma StatusAdvances(p: Progress, content: Record, str: ToString)
    requires Open(p)
    ensures Advance(p, Message("status", content), str) ==
            Noted(p, Field(content, "execution_state") == Some(Str("idle")))
  {
  }

  class JupyterExecution {
    const str: ToString
    var outputs: seq<Output>
    var displayIds: map<string, nat>
    var executionCount: Option<Json>
    var clearBeforeNextOutput: bool
    var replyReceived: bool
    var idleReceived: bool
    var settled: Settled

    /** The raw outputs since the last effective clear. */
    ghost var raw: seq<Output>

    ghost predicate Valid()
      reads this
    {
      && outputs == Accumulate(raw) && IndexOk(outputs, displayIds)
      && (settled == Pending ==> !(replyReceived && idleReceived))
    }

    ghost function Contents(): Progress
      reads this
    {
      Progress(Received(raw, clearBeforeNextOutput), executionCount, replyReceived, idleReceived, settled)
    }

    constructor (str: ToString)
      ensures Valid() && Contents() == START && this.str == str
    {
      this.str := str;
      outputs, displayIds, executionCount, raw := [], map[], None, [];
      clearBeforeNextOutput, replyReceived, idleReceived := false, false, false;
      settled := Pending;
    }

    method ClearOutputs()
      modifies this`outputs, this`displayIds, this`raw
      ensures raw == [] && outputs == [] && displayIds == map[]
    {
      outputs := [];
      displayIds := map[];
      raw := [];
    }

    method PrepareOutput()
      requires outputs == Accumulate(raw) && IndexOk(outputs, displayIds)
      modifies this`outputs, this`displayIds, this`clearBeforeNextOutput, this`raw
      ensures outputs == Accumulate(raw) && IndexOk(outputs, displayIds) && !clearBeforeNextOutput
      ensures raw == if old(clearBeforeNextOutput) then [] else old(raw)
    {
      if !clearBeforeNextOutput {
        return;
      }
      ClearOutputs();
      clearBeforeNextOutput := false;
    }

    /** outputs.push for a stream or an error. */
    method PushOutput(output: Output)
      requires outputs == Accumulate(raw) && IndexOk(outputs, displayIds) && !output.Display?
      modifies this`outputs, this`raw
      ensures outputs == Accumulate(raw) && IndexOk(outputs, displayIds) && raw == old(raw) + [output]
    {
      AppendIndex(outputs, displayIds, output);
      AccumulateMore(raw, output);
      outputs := outputs + [output];
      raw := raw + [output];
    }

    /** The display cases of the switch. */
    method AddDisplay(output: Output)
      requires outputs == Accumulate(raw) && IndexOk(outputs, displayIds) && output.Display?
      modifies this`outputs, this`displayIds, this`raw
      ensures outputs == Accumulate(raw) && IndexOk(outputs, displayIds) && raw == old(raw) + [output]
    {
      AccumulateMore(raw, output);
      var displayId := DisplayIdOf(output);
      if output.kind == UpdateDisplay && displayId.Some? && displayId.value in displayIds {
        ReplaceIndex(outputs, displayIds, output);
        outputs := outputs[displayIds[displayId.value] := output];
      } else {
        AppendIndex(outputs, displayIds, output);
        outputs := outputs + [output];
        if displayId.Some? {
          displayIds := displayIds[displayId.value := |outputs| - 1];
        }
      }
      raw := raw + [output];
    }

    /** finish(), without and with an error. */
    method Finish(failed: bool)
      modifies this`settled
      ensures settled == if failed then TimedOut else Resolved(executionCount, outputs)
    {
      settled := if failed then TimedOut else Resolved(executionCount, outputs);
    }

    /** The cases of the switch that produce an output. */
    method HandleOutput(output: Output)
      requires Valid()
      modifies this`outputs, this`displayIds, this`clearBeforeNextOutput, this`raw
      ensures Valid()
      ensures Received(raw, clearBeforeNextOutput) ==
              Received((if old(clearBeforeNextOutput) then [] else old(raw)) + [output], false)
    {
      PrepareOutput();
      if output.Display? {
        AddDisplay(output);
      } else {
        PushOutput(output);
      }
    }

    method ReadStream(content: Record) returns (output: Output)
      ensures output == StreamOf(content, str)
    {
      var name := if Field(content, "name") == Some(Str("stderr")) then "stderr" else "stdout";
      output := Stream(name, Whole(StringField(content, "text", "", str)));
    }

    /** The display messages: the output is built field by field. */
    method ReadDisplay(msgType: string, content: Record) returns (output: Output)
      requires msgType in {"display_data", "update_display_data", "execute_result"}
      ensures output == DisplayOf(msgType, content)
    {
      var kind := if msgType == "display_data" then DisplayData
                  else if msgType == "update_display_data" then UpdateDisplay
                  else ExecuteResult;
      var data: Record := map[];
      if IsObject(Field(content, "data")) {
        data := content["data"].fields;
      }
      var metadata: Record := map[];
      if IsObject(Field(content, "metadata")) {
        metadata := content["metadata"].fields;
      }
      var count: Option<Json> := None;
      if "execution_count" in content && (content["execution_count"].Int? || content["execution_count"].Float?) {
        count := Some(content["execution_count"]);
      }
      var transient: Option<Record> := None;
      if IsObject(Field(content, "transient")) {
        transient := Some(content["transient"].fields);
      }
      output := Display(kind, data, Some(metadata), count, transient);
    }

    method HandleClear(content: Record)
      requires Valid()
      modifies this`outputs, this`displayIds, this`clearBeforeNextOutput, this`raw
      ensures Valid()
      ensures Received(raw, clearBeforeNextOutput) ==
              if Field(content, "wait") == Some(Bool(true)) then Received(old(raw), true)
              else Received([], old(clearBeforeNextOutput))
    {
      if Field(content, "wait") == Some(Bool(true)) {
        clearBeforeNextOutput := true;
      } else {
        ClearOutputs();
      }
    }

    /** A failed execution shows an error even if the kernel sent none. */
    method ShowReplyError(content: Record)
      requires Valid()
      modifies this`outputs, this`raw
      ensures outputs == Accumulate(raw) && IndexOk(outputs, displayIds)
      ensures raw == ReplyRaw(old(raw), content, str)
    {
      AccumulateError(raw);
      if Field(content, "status") == Some(Str("error")) && !HasError(outputs) {
        PushOutput(ErrorOf(content, str));
      }
    }

    method NoteCount(content: Record)
      modifies this`executionCount
      ensures executionCount == CountWith(old(executionCount), content)
    {
      if Number(content, "execution_count").Some? {
        executionCount := Number(content, "execution_count");
      }
    }

    method NoteReply()
      requires settled == Pending
      modifies this`replyReceived, this`settled
      ensures replyReceived && settled == if idleReceived then Resolved(executionCount, outputs) else Pending
    {
      replyReceived := true;
      if idleReceived {
        Finish(false);
      }
    }

    method HandleReply(content: Record)
      requires Valid() && settled == Pending
      modifies this`outputs, this`executionCount, this`replyReceived, this`settled, this`raw
      ensures Valid() && replyReceived
      ensures raw == ReplyRaw(old(raw), content, str) && executionCount == CountWith(old(executionCount), content)
      ensures settled == if idleReceived then Resolved(executionCount, outputs) else Pending
    {
      NoteCount(content);
      ShowReplyError(content);
      NoteReply();
    }

    method HandleStatus(content: Record)
      requires Valid() && settled == Pending
      modifies this`idleReceived, this`settled
      ensures Valid()
      ensures Contents() == Noted(old(Contents()), Field(content, "execution_state") == Some(Str("idle")))
    {
      if Field(content, "execution_state") == Some(Str("idle")) {
        idleReceived := true;
      }
      if replyReceived && idleReceived {
        Finish(false);
      }
    }

    /** receive(), or the timer, for one event. */
    method HandleEvent(e: Event)
      requires Valid()
      modifies this
      ensures Valid() && Contents() == Advance(old(Contents()), e, str)
    {
      if settled != Pending || e.Noise? {
        return;
      }
      if e.Timeout? {
        Finish(true);
        return;
      }
      HandleMessage(e.msgType, e.content);
    }

    /** The switch over the message type. */
    method HandleMessage(msgType: string, content: Record)
      requires Valid() && settled == Pending
      modifies this
      ensures Valid() && Contents() == Advance(old(Contents()), Message(msgType, content), str)
    {
      if msgType == "status" {
        StatusAdvances(Contents(), content, str);
        HandleStatus(content);
      } else if msgType == "execute_reply" {
        ReplyAdvances(Contents(), content, str);
        HandleReply(content);
      } else {
        HandleContent(msgType, content);
      }
    }

    /** The cases that cannot end the execution. */
    method HandleContent(msgType: string, content: Record)
      requires Valid() && settled == Pending && msgType != "status" && msgType != "execute_reply"
      modifies this
      ensures Valid() && Contents() == Advance(old(Contents()), Message(msgType, content), str)
    {
      ghost var p := Contents();
      if msgType == "execute_input" {
        InputAdvances(p, content, str);
        NoteCount(content);
      } else if msgType == "stream" {
        OutputAdvances(p, msgType, content, str);
        var output := ReadStream(content);
        HandleOutput(output);
      } else if msgType in {"display_data", "update_display_data", "execute_result"} {
        OutputAdvances(p, msgType, content, str);
        var output := ReadDisplay(msgType, content);
        HandleOutput(output);
      } else if msgType == "error" {
        OutputAdvances(p, msgType, content, str);
        HandleOutput(ErrorOf(content, str));
      } else if msgType == "clear_output" {
        ClearAdvances(p, content, str);
        HandleClear(content);
      } else {
        OthersAdvance(p, msgType, content, str);
      }
    }
  }
}
