/**
 * The client side of the streaming proxy (shell/pi/packages/agent/src/proxy.ts): the buffered line
 * reader and the message rebuilt from deltas.  JSON parsing and the salvage parser for tool
 * arguments are parameters.
 */
module Proxy {
  import opened Wrappers

  // ----- Splitting into lines -----

  const NEWLINE := '\n'

  /** text.split("\n"): always at least one piece. */
  function Split(text: string): (r: seq<string>)
    ensures |r| >= 1
  {
    if text == [] then [[]]
    else
      var r := Split(text[..|text|-1]);
      if text[|text|-1] == NEWLINE then r + [[]]
      else r[..|r|-1] + [r[|r|-1] + [text[|text|-1]]]
  }

  function Join(pieces: seq<string>): string
    requires |pieces| >= 1
  {
    if |pieces| == 1 then pieces[0] else Join(pieces[..|pieces|-1]) + [NEWLINE] + pieces[|pieces|-1]
  }

  /** The pieces of a text hold no newline and join back to it. */
  lemma {:induction false} SplitInverts(text: string)
    ensures Join(Split(text)) == text
    ensures forall i :: 0 <= i < |Split(text)| ==> NEWLINE !in Split(text)[i]
  {
    if text != [] {
      var init, c := text[..|text|-1], text[|text|-1];
      SplitInverts(init);
      var r := Split(init);
      assert text == init + [c];
      if c == NEWLINE {
        assert (r + [[]])[..|r|] == r;
        assert init + [NEWLINE] + [] == init + [NEWLINE];
      } else {
        var last := r[|r|-1] + [c];
        assert (r[..|r|-1] + [last])[..|r|-1] == r[..|r|-1];
        if |r| > 1 {
          assert Join(r[..|r|-1]) + [NEWLINE] + last == Join(r[..|r|-1]) + [NEWLINE] + r[|r|-1] + [c];
        }
      }
    }
  }

  /** Pieces without newlines are what splitting their join gives back, so a text has only one such decomposition. */
  lemma {:induction false} SplitUnique(pieces: seq<string>)
    requires |pieces| >= 1 && forall i :: 0 <= i < |pieces| ==> NEWLINE !in pieces[i]
    ensures Split(Join(pieces)) == pieces
  {
    hide Split, Lines, Rest;
    var last := pieces[|pieces|-1];
    OneLine(last);
    if |pieces| == 1 {
      assert pieces == [last];
    } else {
      var init := pieces[..|pieces|-1];
      var head := Join(init) + [NEWLINE];
      SplitUnique(init);
      SplitPush(Join(init), NEWLINE);
      SplitConcat(head, last);
      assert Rest(head) + last == last;
      SplitParts(Join(init));
      SplitParts(last);
      SplitParts(Join(pieces));
      assert Lines(last) + [Rest(last)] == [last];
      assert Lines(last) == [] && Rest(last) == last by {
        assert |Lines(last) + [Rest(last)]| == 1;
        assert (Lines(last) + [Rest(last)])[0] == last;
      }
      assert pieces == init + [last];
    }
  }

  lemma SplitParts(text: string)
    ensures Split(text) == Lines(text) + [Rest(text)] && |Split(text)| >= 1
  {
  }

  /** The complete lines of a text, and what follows its last newline. */
  function Lines(text: string): seq<string> {
    Split(text)[..|Split(text)|-1]
  }

  function Rest(text: string): string {
    Split(text)[|Split(text)|-1]
  }

  /** Reading on after a prefix only needs the prefix's unfinished line. */
  lemma {:induction false} SplitConcat(a: string, b: string)
    ensures Lines(a + b) == Lines(a) + Lines(Rest(a) + b)
    ensures Rest(a + b) == Rest(Rest(a) + b)
  {
    hide Split, Lines, Rest;
    if b == [] {
      assert a + b == a && Rest(a) + b == Rest(a);
      RestIsOneLine(a);
      assert Lines(a) + [] == Lines(a) && Rest(a) + [] == Rest(a);
    } else {
      var init, c := b[..|b|-1], b[|b|-1];
      SplitConcat(a, init);
      assert (a + b)[..|a + b|-1] == a + init && (Rest(a) + b)[..|Rest(a) + b|-1] == Rest(a) + init;
      SplitPush(a + init, c);
      SplitPush(Rest(a) + init, c);
      assert a + b == (a + init) + [c] && Rest(a) + b == (Rest(a) + init) + [c];
      if c == NEWLINE {
        assert Lines(a) + Lines(Rest(a) + init) + [Rest(Rest(a) + init)]
          == Lines(a) + (Lines(Rest(a) + init) + [Rest(Rest(a) + init)]);
      }
    }
  }

  lemma SplitPush(text: string, c: char)
    ensures c == NEWLINE ==> Lines(text + [c]) == Lines(text) + [Rest(text)] && Rest(text + [c]) == []
    ensures c != NEWLINE ==> Lines(text + [c]) == Lines(text) && Rest(text + [c]) == Rest(text) + [c]
  {
    assert (text + [c])[..|text|] == text;
    var r := Split(text);
    assert r == r[..|r|-1] + [r[|r|-1]];
  }

  lemma {:induction false} OneLine(line: string)
    requires NEWLINE !in line
    ensures Split(line) == [line]
  {
    if line != [] {
      OneLine(line[..|line|-1]);
      assert line == line[..|line|-1] + [line[|line|-1]];
    }
  }

  lemma RestIsOneLine(text: string)
    ensures Lines(Rest(text)) == [] && Rest(Rest(text)) == Rest(text)
  {
    SplitInverts(text);
    OneLine(Rest(text));
  }

  // ----- The message being rebuilt -----

  /** A content block; finishing a call drops its partial JSON. */
  datatype Block =
    | Text(text: string, textSignature: Option<string>)
    | Thinking(thinking: string, thinkingSignature: Option<string>)
    | Call(id: string, name: string, arguments: string, partialJson: Option<string>)

  datatype StopReason = Pending | Stop | Length | ToolUse | Error | Aborted

  /** content is a sparse JavaScript array: a map from indices to blocks. */
  datatype Partial = Partial(content: map<int, Block>, stop: StopReason, errorMessage: Option<string>, usage: int,
    thinkingLevel: Option<string>)

  datatype ProxyEvent =
    | Start
    | TextStart(i: int)
    | TextDelta(i: int, delta: string)
    | TextEnd(i: int, signature: Option<string>)
    | ThinkingStart(i: int)
    | ThinkingDelta(i: int, delta: string)
    | ThinkingEnd(i: int, signature: Option<string>)
    | CallStart(i: int, id: string, name: string)
    | CallDelta(i: int, delta: string)
    | CallEnd(i: int, id: string, name: string, arguments: string)
    | Done(reason: StopReason, usage: int, thinkingLevel: Option<string>)
    | Failed(reason: StopReason, message: Option<string>, usage: int, thinkingLevel: Option<string>)
    | Unknown

  /** What the stream pushes to its consumer; each event carries the partial message as rebuilt so far. */
  datatype Pushed = Pushed(event: ProxyEvent, partial: Partial)

  predicate Terminal(p: Pushed) {
    p.event.Done? || p.event.Failed?
  }

  /** parseStreamingJson(...) || {} */
  type Salvage = string -> string

  function WithBlock(p: Partial, i: int, b: Block): Partial {
    p.(content := p.content[i := b])
  }

  /** partialJson += delta; on a finished call the field is gone and JavaScript appends to "undefined". */
  function Appended(partialJson: Option<string>, delta: string): string {
    (if partialJson.Some? then partialJson.value else "undefined") + delta
  }

  /** processProxyEvent: the updated message, or the error it throws. */
  function Process(e: ProxyEvent, p: Partial, salvage: Salvage): Result<Partial> {
    match e
    case Start => Ok(p)
    case TextStart(i) => Ok(WithBlock(p, i, Text("", None)))
    case TextDelta(i, delta) =>
      if i in p.content && p.content[i].Text?
      then Ok(WithBlock(p, i, p.content[i].(text := p.content[i].text + delta)))
      else Err("Received text_delta for non-text content")
    case TextEnd(i, s) =>
      if i in p.content && p.content[i].Text? then Ok(WithBlock(p, i, p.content[i].(textSignature := s)))
      else Err("Received text_end for non-text content")
    case ThinkingStart(i) => Ok(WithBlock(p, i, Thinking("", None)))
    case ThinkingDelta(i, delta) =>
      if i in p.content && p.content[i].Thinking?
      then Ok(WithBlock(p, i, p.content[i].(thinking := p.content[i].thinking + delta)))
      else Err("Received thinking_delta for non-thinking content")
    case ThinkingEnd(i, s) =>
      if i in p.content && p.content[i].Thinking? then Ok(WithBlock(p, i, p.content[i].(thinkingSignature := s)))
      else Err("Received thinking_end for non-thinking content")
    case CallStart(i, id, name) => Ok(WithBlock(p, i, Call(id, name, "{}", Some(""))))
    case CallDelta(i, delta) =>
      if i in p.content && p.content[i].Call? then
        var json := Appended(p.content[i].partialJson, delta);
        Ok(WithBlock(p, i, p.content[i].(arguments := salvage(json), partialJson := Some(json))))
      else Err("Received toolcall_delta for non-toolCall content")
    case CallEnd(i, id, name, arguments) =>
      if i in p.content && p.content[i].Call? then Ok(WithBlock(p, i, Call(id, name, arguments, None))) else Ok(p)
    case Done(reason, usage, level) =>
      Ok(p.(stop := reason, usage := usage, thinkingLevel := if level.Some? then level else p.thinkingLevel))
    case Failed(reason, message, usage, level) =>
      var known := if level.Some? then level else p.thinkingLevel;
      Ok(p.(stop := reason, errorMessage := message, usage := usage, thinkingLevel := known))
    case Unknown => Ok(p)
  }

  /** A call end for something that is no call, and an unknown event, push nothing. */
  predicate Pushes(e: ProxyEvent, p: Partial) {
    !e.Unknown? && (e.CallEnd? ==> e.i in p.content && p.content[e.i].Call?)
  }

  // ----- Rebuilding from deltas -----

  /** All events applied in order; None once one throws. */
  function Rebuilt(es: seq<ProxyEvent>, p: Partial, salvage: Salvage): Option<Partial> {
    if es == [] then Some(p)
    else
      var before := Rebuilt(es[..|es|-1], p, salvage);
      if before.None? then None
      else
        match Process(es[|es|-1], before.value, salvage)
        case Ok(q) => Some(q)
        case Err(_) => None
  }

  predicate StartsAt(e: ProxyEvent, i: int) {
    (e.TextStart? || e.ThinkingStart? || e.CallStart?) && e.i == i
  }

  /** The start that governs index i: the last one, if any. */
  function LastStart(es: seq<ProxyEvent>, i: int): Option<ProxyEvent> {
    if es == [] then None
    else if StartsAt(es[|es|-1], i) then Some(es[|es|-1])
    else LastStart(es[..|es|-1], i)
  }

  /** The events after the last start at index i. */
  function SinceStart(es: seq<ProxyEvent>, i: int): seq<ProxyEvent> {
    if es == [] || StartsAt(es[|es|-1], i) then []
    else SinceStart(es[..|es|-1], i) + [es[|es|-1]]
  }

  predicate IsDelta(e: ProxyEvent) {
    e.TextDelta? || e.ThinkingDelta? || e.CallDelta?
  }

  /** All deltas at index i, concatenated. */
  function Deltas(es: seq<ProxyEvent>, i: int): string {
    if es == [] then ""
    else
      var e := es[|es|-1];
      Deltas(es[..|es|-1], i) + if IsDelta(e) && e.i == i then e.delta else ""
  }

  /** The last end of a tool call at index i, if any. */
  function LastCallEnd(es: seq<ProxyEvent>, i: int): Option<ProxyEvent> {
    if es == [] then None
    else if es[|es|-1].CallEnd? && es[|es|-1].i == i then Some(es[|es|-1])
    else LastCallEnd(es[..|es|-1], i)
  }

  /** The events after it. */
  function SinceCallEnd(es: seq<ProxyEvent>, i: int): seq<ProxyEvent> {
    if es == [] || (es[|es|-1].CallEnd? && es[|es|-1].i == i) then []
    else SinceCallEnd(es[..|es|-1], i) + [es[|es|-1]]
  }

  /** The signature of the last end of a text or thinking block at index i. */
  function Signature(es: seq<ProxyEvent>, i: int): Option<string> {
    if es == [] then None
    else
      var e := es[|es|-1];
      if (e.TextEnd? || e.ThinkingEnd?) && e.i == i then e.signature else Signature(es[..|es|-1], i)
  }

  /** An event that needs an open block of its kind at its index finds one. */
  predicate Fits(e: ProxyEvent, es: seq<ProxyEvent>) {
    match e
    case TextDelta(i, _) => LastStart(es, i).Some? && LastStart(es, i).value.TextStart?
    case TextEnd(i, _) => LastStart(es, i).Some? && LastStart(es, i).value.TextStart?
    case ThinkingDelta(i, _) => LastStart(es, i).Some? && LastStart(es, i).value.ThinkingStart?
    case ThinkingEnd(i, _) => LastStart(es, i).Some? && LastStart(es, i).value.ThinkingStart?
    case CallDelta(i, _) => LastStart(es, i).Some? && LastStart(es, i).value.CallStart?
    case _ => true
  }

  ghost predicate WellFormed(es: seq<ProxyEvent>) {
    forall k :: 0 <= k < |es| ==> Fits(es[k], es[..k])
  }

  /** What the events since the last start at i make of its block. */
  ghost predicate BlockMatches(b: Block, es: seq<ProxyEvent>, i: int, salvage: Salvage) {
    var since := SinceStart(es, i);
    match LastStart(es, i)
    case None => false
    case Some(TextStart(_)) => b.Text? && b.text == Deltas(since, i) && b.textSignature == Signature(since, i)
    case Some(ThinkingStart(_)) =>
      b.Thinking? && b.thinking == Deltas(since, i) && b.thinkingSignature == Signature(since, i)
    case Some(CallStart(_, id, name)) => b.Call? && CallMatches(b, id, name, since, i, salvage)
    case Some(_) => false
  }

  /**
   * A call is as its last end says, or its start before any; deltas after that are appended, behind the
   * text "undefined" once it has ended, and give the arguments.
   */
  ghost predicate CallMatches(b: Block, id: string, name: string, since: seq<ProxyEvent>, i: int, salvage: Salvage)
    requires b.Call?
  {
    var tail := SinceCallEnd(since, i);
    match LastCallEnd(since, i)
    case None =>
      && b.id == id && b.name == name && b.partialJson == Some(Deltas(since, i))
      && b.arguments == (if HasDelta(since, i) then salvage(Deltas(since, i)) else "{}")
    case Some(end) =>
      && end.CallEnd? && b.id == end.id && b.name == end.name
      && (if HasDelta(tail, i)
          then
            && b.partialJson == Some("undefined" + Deltas(tail, i))
            && b.arguments == salvage("undefined" + Deltas(tail, i))
          else b.partialJson == None && b.arguments == end.arguments)
  }

  predicate HasDelta(es: seq<ProxyEvent>, i: int) {
    exists k :: 0 <= k < |es| && IsDelta(es[k]) && es[k].i == i
  }

  /** The rebuilt content: a block exactly where a start occurred, made from that start's deltas. */
  ghost predicate ContentMatches(p: Partial, es: seq<ProxyEvent>, salvage: Salvage) {
    forall i :: (i in p.content <==> LastStart(es, i).Some?)
      && (i in p.content ==> BlockMatches(p.content[i], es, i, salvage))
  }

  /** The last terminal event, the last error event, and the last thinking level a terminal event names. */
  function LastFinal(es: seq<ProxyEvent>): Option<ProxyEvent> {
    if es == [] then None
    else if es[|es|-1].Done? || es[|es|-1].Failed? then Some(es[|es|-1])
    else LastFinal(es[..|es|-1])
  }

  function LastFailure(es: seq<ProxyEvent>): Option<ProxyEvent> {
    if es == [] then None else if es[|es|-1].Failed? then Some(es[|es|-1]) else LastFailure(es[..|es|-1])
  }

  function LastLevel(es: seq<ProxyEvent>): Option<string> {
    if es == [] then None
    else
      var e := es[|es|-1];
      if (e.Done? || e.Failed?) && e.thinkingLevel.Some? then e.thinkingLevel else LastLevel(es[..|es|-1])
  }

  /** Stop reason and usage are the last terminal event's, the error message the last error event's. */
  ghost predicate FinalMatches(p: Partial, es: seq<ProxyEvent>) {
    && (match LastFinal(es)
        case None => p.stop == Pending && p.usage == 0
        case Some(e) => (e.Done? || e.Failed?) && p.stop == e.reason && p.usage == e.usage)
    && (match LastFailure(es)
        case None => p.errorMessage == None
        case Some(e) => e.Failed? && p.errorMessage == e.message)
    && p.thinkingLevel == LastLevel(es)
  }

  lemma StepFinal(es: seq<ProxyEvent>, e: ProxyEvent, p: Partial, salvage: Salvage)
    requires FinalMatches(p, es) && Process(e, p, salvage).Ok?
    ensures FinalMatches(Process(e, p, salvage).value, es + [e])
  {
    assert (es + [e])[..|es|] == es;
  }

  lemma StartKinds(es: seq<ProxyEvent>, i: int)
    ensures LastStart(es, i).Some? ==> StartsAt(LastStart(es, i).value, i)
  {
  }

  /** How one more event changes the reference at an index. */
  lemma PushReference(es: seq<ProxyEvent>, e: ProxyEvent, i: int)
    ensures var fs := es + [e];
      && LastStart(fs, i) == (if StartsAt(e, i) then Some(e) else LastStart(es, i))
      && SinceStart(fs, i) == (if StartsAt(e, i) then [] else SinceStart(es, i) + [e])
  {
    assert (es + [e])[..|es|] == es;
  }

  lemma PushDeltas(es: seq<ProxyEvent>, e: ProxyEvent, i: int)
    ensures Deltas(es + [e], i) == Deltas(es, i) + if IsDelta(e) && e.i == i then e.delta else ""
    ensures HasDelta(es + [e], i) <==> HasDelta(es, i) || (IsDelta(e) && e.i == i)
    ensures (Signature(es + [e], i)
      == if (e.TextEnd? || e.ThinkingEnd?) && e.i == i then e.signature else Signature(es, i))
    ensures LastCallEnd(es + [e], i) == if e.CallEnd? && e.i == i then Some(e) else LastCallEnd(es, i)
    ensures SinceCallEnd(es + [e], i) == if e.CallEnd? && e.i == i then [] else SinceCallEnd(es, i) + [e]
  {
    var fs := es + [e];
    assert fs[..|es|] == es;
    assert fs[|es|] == e;
    assert forall k :: 0 <= k < |es| ==> fs[k] == es[k];
    if HasDelta(es, i) {
      var k :| 0 <= k < |es| && IsDelta(es[k]) && es[k].i == i;
      assert IsDelta(fs[k]) && fs[k].i == i;
    }
  }

  /** One event keeps the content in step with the reference, and throws exactly when it does not fit. */
  lemma StepMatches(es: seq<ProxyEvent>, e: ProxyEvent, p: Partial, salvage: Salvage)
    requires ContentMatches(p, es, salvage)
    ensures Process(e, p, salvage).Ok? <==> Fits(e, es)
    ensures Process(e, p, salvage).Ok? ==> ContentMatches(Process(e, p, salvage).value, es + [e], salvage)
  {
    if Process(e, p, salvage).Ok? {
      var q := Process(e, p, salvage).value;
      forall i
        ensures (i in q.content <==> LastStart(es + [e], i).Some?)
             && (i in q.content ==> BlockMatches(q.content[i], es + [e], i, salvage))
      {
        StepMatchesAt(es, e, p, i, salvage);
      }
    }
  }

  /** The index an event writes to, if any. */
  predicate Touches(e: ProxyEvent, i: int) {
    match e
    case TextStart(j) => i == j
    case TextDelta(j, _) => i == j
    case TextEnd(j, _) => i == j
    case ThinkingStart(j) => i == j
    case ThinkingDelta(j, _) => i == j
    case ThinkingEnd(j, _) => i == j
    case CallStart(j, _, _) => i == j
    case CallDelta(j, _) => i == j
    case CallEnd(j, _, _, _) => i == j
    case _ => false
  }

  /** Blocks at other indices are untouched by an event. */
  lemma OtherBlocksUntouched(e: ProxyEvent, p: Partial, i: int, salvage: Salvage)
    requires Process(e, p, salvage).Ok? && !Touches(e, i)
    ensures var q := Process(e, p, salvage).value;
            (i in q.content <==> i in p.content) && (i in p.content ==> q.content[i] == p.content[i])
  {
  }

  lemma StepMatchesAt(es: seq<ProxyEvent>, e: ProxyEvent, p: Partial, i: int, salvage: Salvage)
    requires ContentMatches(p, es, salvage) && Process(e, p, salvage).Ok?
    ensures var q := Process(e, p, salvage).value;
      && (i in q.content <==> LastStart(es + [e], i).Some?)
      && (i in q.content ==> BlockMatches(q.content[i], es + [e], i, salvage))
  {
    PushReference(es, e, i);
    if !Touches(e, i) {
      OtherBlocksUntouched(e, p, i, salvage);
      hide Process, SinceStart, BlockMatches, LastStart;
      SameBlock(es, e, p, i, salvage);
    } else {
      hide SinceStart, BlockMatches, LastStart;
      StepAtOwnIndex(es, e, p, i, salvage);
    }
  }

  lemma SameBlock(es: seq<ProxyEvent>, e: ProxyEvent, p: Partial, i: int, salvage: Salvage)
    requires ContentMatches(p, es, salvage) && !Touches(e, i)
    ensures i in p.content <==> LastStart(es + [e], i).Some?
    ensures i in p.content ==> BlockMatches(p.content[i], es + [e], i, salvage)
  {
    hide SinceStart, Deltas, HasDelta, LastStart, Signature, LastCallEnd, SinceCallEnd;
    PushReference(es, e, i);
    var since := SinceStart(es, i);
    PushDeltas(since, e, i);
    PushDeltas(SinceCallEnd(since, i), e, i);
    assert !StartsAt(e, i);
    assert Deltas(since, i) + "" == Deltas(since, i);
    assert Deltas(SinceCallEnd(since, i), i) + "" == Deltas(SinceCallEnd(since, i), i);
  }

  lemma StepAtOwnIndex(es: seq<ProxyEvent>, e: ProxyEvent, p: Partial, i: int, salvage: Salvage)
    requires ContentMatches(p, es, salvage) && Process(e, p, salvage).Ok? && Touches(e, i)
    ensures var q := Process(e, p, salvage).value;
      && (i in q.content <==> LastStart(es + [e], i).Some?)
      && (i in q.content ==> BlockMatches(q.content[i], es + [e], i, salvage))
  {
    PushReference(es, e, i);
    var since := SinceStart(es, i);
    PushDeltas(since, e, i);
    PushDeltas(SinceCallEnd(since, i), e, i);
    StartKinds(es, i);
    EmptySince(i);
    hide SinceStart, Deltas, HasDelta, LastStart, Signature, LastCallEnd, SinceCallEnd;
    assert Deltas(since, i) + "" == Deltas(since, i);
    assert Deltas(SinceCallEnd(since, i), i) + "" == Deltas(SinceCallEnd(since, i), i);
    if StartsAt(e, i) {
      assert SinceStart(es + [e], i) == [];
    } else if e.CallDelta? {
      assert BlockMatches(p.content[i], es, i, salvage);
      CallDeltaStep(p.content[i], LastStart(es, i).value.id, LastStart(es, i).value.name, since, e, salvage);
    }
  }

  lemma CallDeltaStep(b: Block, id: string, name: string, since: seq<ProxyEvent>, e: ProxyEvent, salvage: Salvage)
    requires b.Call? && e.CallDelta? && CallMatches(b, id, name, since, e.i, salvage)
    ensures var json := Appended(b.partialJson, e.delta);
      CallMatches(b.(arguments := salvage(json), partialJson := Some(json)), id, name, since + [e], e.i, salvage)
  {
    var tail := SinceCallEnd(since, e.i);
    PushDeltas(since, e, e.i);
    PushDeltas(tail, e, e.i);
    hide Deltas, HasDelta, LastCallEnd, SinceCallEnd, Appended;
    if !HasDelta(tail, e.i) {
      NoDeltasNoText(tail, e.i);
      assert "" + e.delta == e.delta;
    }
    AppendsDelta(b, Deltas(since, e.i), Deltas(tail, e.i), e.delta);
  }

  lemma {:induction false} NoDeltasNoText(es: seq<ProxyEvent>, i: int)
    requires !HasDelta(es, i)
    ensures Deltas(es, i) == ""
  {
    if es != [] {
      assert es == es[..|es|-1] + [es[|es|-1]];
      PushDeltas(es[..|es|-1], es[|es|-1], i);
      NoDeltasNoText(es[..|es|-1], i);
    }
  }

  lemma AppendsDelta(b: Block, all: string, tail: string, delta: string)
    requires b.Call?
    ensures b.partialJson == Some(all) ==> Appended(b.partialJson, delta) == all + delta
    ensures b.partialJson == Some("undefined" + tail) ==> Appended(b.partialJson, delta) == "undefined" + (tail + delta)
    ensures b.partialJson == None ==> Appended(b.partialJson, delta) == "undefined" + delta
  {
    assert ("undefined" + tail) + delta == "undefined" + (tail + delta);
  }

  lemma EmptySince(i: int)
    ensures Deltas([], i) == "" && !HasDelta([], i)
    ensures Signature([], i) == None && LastCallEnd([], i) == None && SinceCallEnd([], i) == []
  {
  }

  const EMPTY := Partial(map[], Pending, None, 0, None)

  /**
   * The rebuild theorem: a sequence is accepted exactly when every event fits; then every block is the
   * concatenation of the deltas at its index since its last start, a finished call what its end says, and
   * stop reason, usage and error message those of the last terminal events.
   */
  lemma {:induction false} RebuildIsDeltaConcatenation(es: seq<ProxyEvent>, salvage: Salvage)
    ensures Rebuilt(es, EMPTY, salvage).Some? <==> WellFormed(es)
    ensures Rebuilt(es, EMPTY, salvage).Some? ==>
      && ContentMatches(Rebuilt(es, EMPTY, salvage).value, es, salvage)
      && FinalMatches(Rebuilt(es, EMPTY, salvage).value, es)
  {
    if es != [] {
      var init, e := es[..|es|-1], es[|es|-1];
      RebuildIsDeltaConcatenation(init, salvage);
      assert es == init + [e];
      assert forall k :: 0 <= k < |init| ==> init[k] == es[k] && init[..k] == es[..k];
      if Rebuilt(init, EMPTY, salvage).Some? {
        StepMatches(init, e, Rebuilt(init, EMPTY, salvage).value, salvage);
        if Process(e, Rebuilt(init, EMPTY, salvage).value, salvage).Ok? {
          StepFinal(init, e, Rebuilt(init, EMPTY, salvage).value, salvage);
        }
      }
    }
  }

  // ----- The reader -----

  /** trim and JSON.parse of a data line's payload. */
  datatype Decoded = Blank | Invalid(message: string) | Event(event: ProxyEvent)

  type Decoder = string -> Decoded

  const PREFIX := "data: "

  /** What the reader has done so far; stopped holds the error that ended it. */
  datatype Progress = Progress(partial: Partial, terminal: bool, pushed: seq<Pushed>, stopped: Option<string>)

  const BEGUN := Progress(EMPTY, false, [], None)

  /** processLine; once a line has thrown, nothing more is processed. */
  function ProcessLine(s: Progress, line: string, decode: Decoder, salvage: Salvage): Progress {
    if s.stopped.Some? || !(PREFIX <= line) then s
    else
      match decode(line[|PREFIX|..])
      case Blank => s
      case Invalid(message) => s.(stopped := Some(message))
      case Event(e) =>
        match Process(e, s.partial, salvage)
        case Err(message) => s.(stopped := Some(message))
        case Ok(q) =>
          if Pushes(e, s.partial) then
            Progress(q, s.terminal || e.Done? || e.Failed?, s.pushed + [Pushed(e, q)], None)
          else s.(partial := q)
  }

  function ProcessLines(s: Progress, lines: seq<string>, decode: Decoder, salvage: Salvage): Progress {
    if lines == [] then s
    else ProcessLine(ProcessLines(s, lines[..|lines|-1], decode, salvage), lines[|lines|-1], decode, salvage)
  }

  /** The error event pushed for a thrown error, or for an end of input without a terminal event. */
  function WithError(s: Progress, message: string): Progress {
    var q := s.partial.(stop := Error, errorMessage := Some(message));
    s.(partial := q, pushed := s.pushed + [Pushed(Failed(Error, Some(message), q.usage, None), q)])
  }

  const DROPPED := "Connection closed by proxy server before the response completed"

  function Finish(s: Progress): Progress {
    if s.stopped.Some? then WithError(s, s.stopped.value)
    else if !s.terminal then WithError(s, DROPPED)
    else s
  }

  /** The simple form: split the whole response at its newlines, drop an empty last line, process in order. */
  function WholeResponse(text: string, decode: Decoder, salvage: Salvage): Progress {
    Finish(ProcessLines(BEGUN, AllLines(text), decode, salvage))
  }

  function AllLines(text: string): seq<string> {
    if Rest(text) == "" then Lines(text) else Lines(text) + [Rest(text)]
  }

  /** The lines hold the whole text: joined again they are it, but for a newline at its end. */
  lemma LinesHoldTheText(text: string)
    ensures text == "" ==> AllLines(text) == []
    ensures text != "" ==> AllLines(text) != []
    ensures text != "" ==> text == Join(AllLines(text)) + if text[|text|-1] == NEWLINE then [NEWLINE] else []
    ensures forall i :: 0 <= i < |AllLines(text)| ==> NEWLINE !in AllLines(text)[i]
  {
    hide Split, Lines, Rest, Join;
    SplitInverts(text);
    SplitParts(text);
    if text == "" {
      OneLine(text);
      assert |Lines(text) + [Rest(text)]| == 1 && (Lines(text) + [Rest(text)])[0] == "";
    } else {
      var init := text[..|text|-1];
      assert text == init + [text[|text|-1]];
      SplitPush(init, text[|text|-1]);
      SplitInverts(init);
      SplitParts(init);
    }
  }

  function Concat(chunks: seq<string>): string {
    if chunks == [] then "" else Concat(chunks[..|chunks|-1]) + chunks[|chunks|-1]
  }

  lemma {:induction false} ProcessLinesConcat(s: Progress, a: seq<string>, b: seq<string>, decode: Decoder,
                                              salvage: Salvage)
    ensures (ProcessLines(s, a + b, decode, salvage)
      == ProcessLines(ProcessLines(s, a, decode, salvage), b, decode, salvage))
  {
    if b == [] {
      assert a + b == a;
    } else {
      ProcessLinesConcat(s, a, b[..|b|-1], decode, salvage);
      assert (a + b)[..|a + b|-1] == a + b[..|b|-1];
    }
  }

  lemma {:induction false} StoppedStays(s: Progress, lines: seq<string>, decode: Decoder, salvage: Salvage)
    requires s.stopped.Some?
    ensures ProcessLines(s, lines, decode, salvage) == s
  {
    if lines != [] {
      StoppedStays(s, lines[..|lines|-1], decode, salvage);
    }
  }

  /** Lines 203 to 205: the lines of one read; a throw leaves the loop. */
  method ProcessAll(s: Progress, lines: seq<string>, decode: Decoder, salvage: Salvage) returns (r: Progress)
    ensures r == ProcessLines(s, lines, decode, salvage)
  {
    r := s;
    for i := 0 to |lines|
      invariant r == ProcessLines(s, lines[..i], decode, salvage)
    {
      assert lines[..i+1][..i] == lines[..i];
      if r.stopped.Some? {
        ProcessLinesConcat(s, lines[..i], lines[i..], decode, salvage);
        StoppedStays(r, lines[i..], decode, salvage);
        assert lines[..i] + lines[i..] == lines;
        return;
      }
      r := ProcessLine(r, lines[i], decode, salvage);
    }
    assert lines[..|lines|] == lines;
  }

  /**
   * The reader loop of streamProxy without an abort: however the response is cut into chunks, it
   * does what one split of the whole text does.  flush is what the decoder emits at end of input.
   */
  method StreamProxy(chunks: seq<string>, flush: string, decode: Decoder, salvage: Salvage) returns (r: Progress)
    requires NEWLINE !in flush
    ensures r == WholeResponse(Concat(chunks) + flush, decode, salvage)
  {
    hide ProcessLine, WithError, Finish;
    var buffer := "";
    r := BEGUN;
    for i := 0 to |chunks|
      invariant r == ProcessLines(BEGUN, Lines(Concat(chunks[..i])), decode, salvage) && r.stopped.None?
      invariant buffer == Rest(Concat(chunks[..i]))
    {
      assert chunks[..i+1][..i] == chunks[..i];
      ghost var read := Concat(chunks[..i]);
      SplitConcat(read, chunks[i]);
      ProcessLinesConcat(BEGUN, Lines(read), Lines(buffer + chunks[i]), decode, salvage);
      buffer := buffer + chunks[i];
      var lines := Split(buffer);
      buffer := lines[|lines|-1];
      r := ProcessAll(r, lines[..|lines|-1], decode, salvage);
      if r.stopped.Some? {
        StopsForGood(chunks, i + 1, flush, decode, salvage);
        r := WithError(r, r.stopped.value);
        return;
      }
    }
    assert chunks[..|chunks|] == chunks;
    FlushedLines(Concat(chunks), flush);
    ghost var text := Concat(chunks) + flush;
    buffer := buffer + flush;
    if buffer != "" {
      ProcessLinesConcat(BEGUN, Lines(text), [Rest(text)], decode, salvage);
      SingleLine(r, buffer, decode, salvage);
      r := ProcessLine(r, buffer, decode, salvage);
    }
    r := Finish(r);
    assert r == Finish(ProcessLines(BEGUN, AllLines(text), decode, salvage));
  }

  lemma SingleLine(s: Progress, line: string, decode: Decoder, salvage: Salvage)
    ensures ProcessLines(s, [line], decode, salvage) == ProcessLine(s, line, decode, salvage)
  {
    assert [line][..0] == [];
  }

  /** The flushed text has no newline, so it only extends the unfinished line. */
  lemma FlushedLines(text: string, flush: string)
    requires NEWLINE !in flush
    ensures Lines(text + flush) == Lines(text) && Rest(text + flush) == Rest(text) + flush
  {
    SplitInverts(text);
    SplitConcat(text, flush);
    OneLine(Rest(text) + flush);
    assert Lines(text) + [] == Lines(text);
  }

  lemma {:induction false} ConcatSplit(chunks: seq<string>, i: nat)
    requires i <= |chunks|
    ensures Concat(chunks) == Concat(chunks[..i]) + Concat(chunks[i..])
  {
    if i == |chunks| {
      assert chunks[..i] == chunks && Concat(chunks[i..]) == "";
    } else {
      var init := chunks[..|chunks|-1];
      ConcatSplit(init, i);
      assert init[..i] == chunks[..i] && chunks[i..][..|chunks[i..]|-1] == init[i..];
    }
  }

  /** The lines of a longer text begin with the complete lines of its prefix. */
  lemma LinesExtend(read: string, rest: string) returns (more: seq<string>)
    ensures AllLines(read + rest) == Lines(read) + more
  {
    hide Lines, Rest;
    SplitConcat(read, rest);
    more := Lines(Rest(read) + rest) + (if Rest(read + rest) == "" then [] else [Rest(read + rest)]);
    assert Lines(read) + Lines(Rest(read) + rest) + [Rest(read + rest)]
      == Lines(read) + (Lines(Rest(read) + rest) + [Rest(read + rest)]);
    assert Lines(Rest(read) + rest) + [] == Lines(Rest(read) + rest);
  }

  /** A line that throws within the first i chunks stops the whole text's processing there too. */
  lemma StopsForGood(chunks: seq<string>, i: nat, flush: string, decode: Decoder, salvage: Salvage)
    requires i <= |chunks|
    requires ProcessLines(BEGUN, Lines(Concat(chunks[..i])), decode, salvage).stopped.Some?
    ensures var s := ProcessLines(BEGUN, Lines(Concat(chunks[..i])), decode, salvage);
            WholeResponse(Concat(chunks) + flush, decode, salvage) == WithError(s, s.stopped.value)
  {
    hide Lines, Rest, ProcessLines, ProcessLine, Concat, WithError, AllLines;
    var read, rest := Concat(chunks[..i]), Concat(chunks[i..]) + flush;
    ConcatSplit(chunks, i);
    assert Concat(chunks) + flush == read + rest;
    var more := LinesExtend(read, rest);
    ProcessLinesConcat(BEGUN, Lines(read), more, decode, salvage);
    StoppedStays(ProcessLines(BEGUN, Lines(read), decode, salvage), more, decode, salvage);
  }

  /** Every response, however broken, gives its consumer a terminal event. */
  lemma AlwaysTerminates(text: string, decode: Decoder, salvage: Salvage)
    ensures exists k ::
      0 <= k < |WholeResponse(text, decode, salvage).pushed| && Terminal(WholeResponse(text, decode, salvage).pushed[k])
  {
    var lines := AllLines(text);
    var s := ProcessLines(BEGUN, lines, decode, salvage);
    TerminalIsPushed(lines, decode, salvage);
    var r := WholeResponse(text, decode, salvage);
    if s.stopped.Some? || !s.terminal {
      assert Terminal(r.pushed[|r.pushed|-1]);
    }
  }

  lemma {:induction false} TerminalIsPushed(lines: seq<string>, decode: Decoder, salvage: Salvage)
    ensures var s := ProcessLines(BEGUN, lines, decode, salvage);
            s.terminal <==> exists k :: 0 <= k < |s.pushed| && Terminal(s.pushed[k])
  {
    if lines != [] {
      var init := lines[..|lines|-1];
      TerminalIsPushed(init, decode, salvage);
      var s, t := ProcessLines(BEGUN, init, decode, salvage), ProcessLines(BEGUN, lines, decode, salvage);
      assert s.pushed <= t.pushed;
      if s.terminal {
        var k :| 0 <= k < |s.pushed| && Terminal(s.pushed[k]);
        assert Terminal(t.pushed[k]);
      }
      if t.terminal && !s.terminal {
        assert Terminal(t.pushed[|t.pushed|-1]);
      }
      if k :| 0 <= k < |t.pushed| && Terminal(t.pushed[k]) {
        assert k < |s.pushed| ==> Terminal(s.pushed[k]);
      }
    }
  }

  // ----- What is pushed -----

  /** One pushed event per event, with the message rebuilt up to it; an end of something that is no call is silent. */
  function PushedOf(es: seq<ProxyEvent>, salvage: Salvage): seq<Pushed>
    requires Rebuilt(es, EMPTY, salvage).Some?
  {
    if es == [] then []
    else
      var init, e := es[..|es|-1], es[|es|-1];
      var open := e.CallEnd? ==> LastStart(init, e.i).Some? && LastStart(init, e.i).value.CallStart?;
      PushedOf(init, salvage) + if e.Unknown? || !open then [] else [Pushed(e, Rebuilt(es, EMPTY, salvage).value)]
  }

  ghost predicate Reported(s: Progress, es: seq<ProxyEvent>, salvage: Salvage) {
    && Rebuilt(es, EMPTY, salvage) == Some(s.partial)
    && s.pushed == PushedOf(es, salvage)
    && (s.terminal <==> LastFinal(es).Some?)
  }

  lemma ReportStep(s: Progress, es: seq<ProxyEvent>, e: ProxyEvent, q: Partial, salvage: Salvage)
    requires Reported(s, es, salvage) && s.stopped.None? && Process(e, s.partial, salvage) == Ok(q)
    ensures var t := if Pushes(e, s.partial) then
                       Progress(q, s.terminal || e.Done? || e.Failed?, s.pushed + [Pushed(e, q)], None)
                     else s.(partial := q);
      Reported(t, es + [e], salvage)
  {
    assert (es + [e])[..|es|] == es;
    assert Rebuilt(es + [e], EMPTY, salvage) == Some(q);
    if e.CallEnd? {
      OpenCall(es, e, s.partial, salvage);
    }
    hide Rebuilt, Process, LastStart;
  }

  /** The consumer sees every event that was read, in order, and the stream counts as ended after a terminal one. */
  lemma {:induction false} EveryEventIsPushed(lines: seq<string>, decode: Decoder, salvage: Salvage)
    requires ProcessLines(BEGUN, lines, decode, salvage).stopped.None?
    ensures Reported(ProcessLines(BEGUN, lines, decode, salvage), EventsOn(lines, decode), salvage)
  {
    hide Process, Reported, Pushes;
    if lines == [] {
      NothingReported(salvage);
    } else {
      var init, line := lines[..|lines|-1], lines[|lines|-1];
      EveryEventIsPushed(init, decode, salvage);
      if PREFIX <= line && decode(line[|PREFIX|..]).Event? {
        var s, e := ProcessLines(BEGUN, init, decode, salvage), decode(line[|PREFIX|..]).event;
        ReportStep(s, EventsOn(init, decode), e, Process(e, s.partial, salvage).value, salvage);
      }
    }
  }

  lemma NothingReported(salvage: Salvage)
    ensures Reported(BEGUN, [], salvage)
  {
  }

  lemma OpenCall(es: seq<ProxyEvent>, e: ProxyEvent, p: Partial, salvage: Salvage)
    requires Rebuilt(es, EMPTY, salvage) == Some(p) && e.CallEnd?
    ensures Pushes(e, p) <==> LastStart(es, e.i).Some? && LastStart(es, e.i).value.CallStart?
  {
    RebuildIsDeltaConcatenation(es, salvage);
    assert e.i in p.content ==> BlockMatches(p.content[e.i], es, e.i, salvage);
  }

  // ----- The message a response leaves -----

  /** The events on a list of lines, ignoring lines that carry none. */
  function EventsOn(lines: seq<string>, decode: Decoder): seq<ProxyEvent> {
    if lines == [] then []
    else
      var line := lines[|lines|-1];
      var before := EventsOn(lines[..|lines|-1], decode);
      if PREFIX <= line && decode(line[|PREFIX|..]).Event? then before + [decode(line[|PREFIX|..]).event] else before
  }

  /** While nothing throws, the partial message is the rebuild of the events read so far. */
  lemma {:induction false} ReaderRebuilds(lines: seq<string>, decode: Decoder, salvage: Salvage)
    requires ProcessLines(BEGUN, lines, decode, salvage).stopped.None?
    ensures Rebuilt(EventsOn(lines, decode), EMPTY, salvage)
      == Some(ProcessLines(BEGUN, lines, decode, salvage).partial)
  {
    if lines != [] {
      var init, line := lines[..|lines|-1], lines[|lines|-1];
      ReaderRebuilds(init, decode, salvage);
      if PREFIX <= line && decode(line[|PREFIX|..]).Event? {
        var e := decode(line[|PREFIX|..]).event;
        var before := EventsOn(init, decode);
        assert (before + [e])[..|before|] == before;
        NothingPushedNothingChanged(e, ProcessLines(BEGUN, init, decode, salvage).partial, salvage);
      }
    }
  }

  lemma NothingPushedNothingChanged(e: ProxyEvent, p: Partial, salvage: Salvage)
    ensures !Pushes(e, p) ==> Process(e, p, salvage) == Ok(p)
  {
  }

  /** What the consumer is left with: the message rebuilt from `es`, closed by an error event if `message` says so. */
  ghost predicate Leaves(r: Progress, es: seq<ProxyEvent>, message: Option<string>, salvage: Salvage) {
    && WellFormed(es) && Rebuilt(es, EMPTY, salvage).Some? && ContentMatches(r.partial, es, salvage)
    && match message
       case None => FinalMatches(r.partial, es) && r.pushed == PushedOf(es, salvage)
       case Some(m) =>
         && r.partial.stop == Error && r.partial.errorMessage == Some(m)
         && r.pushed == PushedOf(es, salvage) + [Pushed(Failed(Error, Some(m), r.partial.usage, None), r.partial)]
  }

  /**
   * A response read without an error leaves blocks that are the concatenations of their deltas, and an error
   * only if no terminal event came.
   */
  lemma ResponseIsDeltaConcatenation(text: string, decode: Decoder, salvage: Salvage)
    requires ProcessLines(BEGUN, AllLines(text), decode, salvage).stopped.None?
    ensures var es := EventsOn(AllLines(text), decode);
      Leaves(WholeResponse(text, decode, salvage), es, if LastFinal(es).Some? then None else Some(DROPPED), salvage)
  {
    hide AllLines, ProcessLines, EventsOn, PushedOf, Rebuilt, WellFormed, LastStart, BlockMatches;
    ReaderRebuilds(AllLines(text), decode, salvage);
    EveryEventIsPushed(AllLines(text), decode, salvage);
    RebuildIsDeltaConcatenation(EventsOn(AllLines(text), decode), salvage);
  }

  /** The line that threw: not JSON, or an event that does not fit the ones before it. */
  ghost predicate Throws(line: string, es: seq<ProxyEvent>, message: string, decode: Decoder) {
    && PREFIX <= line
    && match decode(line[|PREFIX|..])
       case Blank => false
       case Invalid(m) => m == message
       case Event(e) => !Fits(e, es)
  }

  lemma {:induction false} FirstThrow(lines: seq<string>, decode: Decoder, salvage: Salvage) returns (k: nat)
    requires ProcessLines(BEGUN, lines, decode, salvage).stopped.Some?
    ensures k < |lines| && ProcessLines(BEGUN, lines[..k], decode, salvage).stopped.None?
    ensures var s, r := ProcessLines(BEGUN, lines[..k], decode, salvage), ProcessLines(BEGUN, lines, decode, salvage);
      && r == s.(stopped := r.stopped)
      && Throws(lines[k], EventsOn(lines[..k], decode), r.stopped.value, decode)
  {
    var init, line := lines[..|lines|-1], lines[|lines|-1];
    var s := ProcessLines(BEGUN, init, decode, salvage);
    if s.stopped.Some? {
      k := FirstThrow(init, decode, salvage);
      assert init[..k] == lines[..k];
    } else {
      k := |init|;
      assert lines[..k] == init;
      ReaderRebuilds(init, decode, salvage);
      RebuildIsDeltaConcatenation(EventsOn(init, decode), salvage);
      if decode(line[|PREFIX|..]).Event? {
        StepMatches(EventsOn(init, decode), decode(line[|PREFIX|..]).event, s.partial, salvage);
      }
    }
  }

  /** A response with a line that throws leaves what the lines before it gave, closed by that error. */
  lemma BrokenResponse(text: string, decode: Decoder, salvage: Salvage) returns (k: nat)
    requires ProcessLines(BEGUN, AllLines(text), decode, salvage).stopped.Some?
    ensures k < |AllLines(text)|
    ensures var es, message := EventsOn(AllLines(text)[..k], decode),
      ProcessLines(BEGUN, AllLines(text), decode, salvage).stopped.value;
      && Leaves(WholeResponse(text, decode, salvage), es, Some(message), salvage)
      && Throws(AllLines(text)[k], es, message, decode)
  {
    hide AllLines, ProcessLines, EventsOn, PushedOf, Rebuilt, WellFormed, LastStart, BlockMatches;
    k := FirstThrow(AllLines(text), decode, salvage);
    var lines := AllLines(text)[..k];
    ReaderRebuilds(lines, decode, salvage);
    EveryEventIsPushed(lines, decode, salvage);
    RebuildIsDeltaConcatenation(EventsOn(lines, decode), salvage);
  }
}
