/** Capturing the reply to a command, and framing it for a client that labelled the command. */
module Reply {
  import opened Basics
  import opened Text
  import opened Tags
  import Proto

  // ---- capture ----

  datatype Capture = Capture(
    replyFor: Option<nat>, buf: seq<string>, labelValue: Option<string>, selfMsg: bool, bypass: bool,
    sent: seq<(nat, string)>)

  function Begin(c: Capture, id: nat, labelValue: Option<string>): Capture {
    Capture(Some(id), [], labelValue, false, false, c.sent)
  }

  /** A line for the commanding client is held back; any other goes out if its queue accepts it. */
  function Deliver(c: Capture, id: nat, line: string, accepted: bool): Capture {
    if c.replyFor == Some(id) && !c.bypass then c.(buf := c.buf + [line])
    else if accepted then c.(sent := c.sent + [(id, line)])
    else c
  }

  datatype Act =
    | Line(id: nat, line: string, accepted: bool)
    | BypassOn
    | BypassOff

  function Do(c: Capture, a: Act): Capture {
    match a
    case Line(id, line, accepted) => Deliver(c, id, line, accepted)
    case BypassOn => c.(selfMsg := true, bypass := true)
    case BypassOff => c.(bypass := false)
  }

  function DoAll(c: Capture, acts: seq<Act>): Capture
    decreases |acts|
  {
    if acts == [] then c else DoAll(Do(c, acts[0]), acts[1..])
  }

  function BypassAfter(bypass: bool, a: Act): bool {
    if a.BypassOn? then true else if a.BypassOff? then false else bypass
  }

  /** Lines delivered to `id` outside any bypass, in order. */
  function Owed(id: nat, bypass: bool, acts: seq<Act>): seq<string>
    decreases |acts|
  {
    if acts == [] then []
    else
      (if acts[0].Line? && acts[0].id == id && !bypass then [acts[0].line] else [])
      + Owed(id, BypassAfter(bypass, acts[0]), acts[1..])
  }

  /** Everything else that a queue accepted, in order. */
  function Queued(id: nat, bypass: bool, acts: seq<Act>): seq<(nat, string)>
    decreases |acts|
  {
    if acts == [] then []
    else
      (if acts[0].Line? && !(acts[0].id == id && !bypass) && acts[0].accepted then [(acts[0].id, acts[0].line)] else [])
      + Queued(id, BypassAfter(bypass, acts[0]), acts[1..])
  }

  lemma {:induction false} RunCaptures(c: Capture, id: nat, acts: seq<Act>)
    requires c.replyFor == Some(id)
    ensures var c' := DoAll(c, acts);
      && c'.replyFor == Some(id) && c'.labelValue == c.labelValue
      && c'.buf == c.buf + Owed(id, c.bypass, acts) && c'.sent == c.sent + Queued(id, c.bypass, acts)
    decreases |acts|
  {
    if acts == [] {
      assert c.buf + [] == c.buf && c.sent + [] == c.sent;
    } else {
      var a, c1 := acts[0], Do(c, acts[0]);
      RunCaptures(c1, id, acts[1..]);
      var owed, queued := Owed(id, c1.bypass, acts[1..]), Queued(id, c1.bypass, acts[1..]);
      if a.Line? {
        assert c.buf + [a.line] + owed == c.buf + ([a.line] + owed);
        assert c.sent + [(a.id, a.line)] + queued == c.sent + ([(a.id, a.line)] + queued);
      }
      assert [] + owed == owed && [] + queued == queued;
    }
  }

  /** The reply holds each line delivered to the commanding client, once and in order; all others are not in it. */
  lemma CaptureComplete(c: Capture, id: nat, labelValue: Option<string>, acts: seq<Act>)
    ensures var c' := DoAll(Begin(c, id, labelValue), acts);
      c'.buf == Owed(id, false, acts) && c'.sent == c.sent + Queued(id, false, acts) && c'.labelValue == labelValue
  {
    RunCaptures(Begin(c, id, labelValue), id, acts);
    assert [] + Owed(id, false, acts) == Owed(id, false, acts);
  }

  // ---- framing ----

  const CrLf: string := "\r\n"

  function ProtoLine(prefix: string, keyword: string, tail: string): string {
    (if prefix == "" then "" else prefix + " ") + keyword + (if tail == "" then "" else " " + tail) + CrLf
  }

  predicate EndsCrLf(s: string) {
    |s| >= 2 && s[|s| - 2] == '\r' && s[|s| - 1] == '\n'
  }

  /** Put a tag in front of a line, merging with the tags it already has. */
  function WithTag(line: string, tag: string): string {
    var body := if EndsCrLf(line) then line[..|line| - 2] else line;
    (if body != "" && body[0] == '@' then "@" + tag + ";" + body[1..] else "@" + tag + " " + body) + CrLf
  }

  function WithTags(lines: seq<string>, tag: string): (r: seq<string>)
    ensures |r| == |lines| && forall i :: 0 <= i < |r| ==> r[i] == WithTag(lines[i], tag)
  {
    seq(|lines|, i requires 0 <= i < |lines| => WithTag(lines[i], tag))
  }

  function LabelTag(labelValue: string): string {
    "label=" + Escape(labelValue)
  }

  function OpenLine(prefix: string, reference: string): string {
    ProtoLine(prefix, "BATCH", "+" + reference + " labeled-response")
  }

  function CloseLine(prefix: string, reference: string): string {
    ProtoLine(prefix, "BATCH", "-" + reference)
  }

  function Frame(prefix: string, lines: seq<string>, labelValue: Option<string>, batch: Option<string>): string {
    if labelValue.None? then Concat(lines)
    else
      var tag := LabelTag(labelValue.value);
      if lines == [] then WithTag(ProtoLine(prefix, "ACK", ""), tag)
      else if |lines| == 1 then WithTag(lines[0], tag)
      else if batch.None? then Concat(lines)
      else
        WithTag(OpenLine(prefix, batch.value), tag) + Concat(WithTags(lines, "batch=" + batch.value))
        + CloseLine(prefix, batch.value)
  }

  function BatchRef(id: nat, n: nat): string {
    "b" + Decimal(id) + "-" + Decimal(n)
  }

  function NextBatch(n: nat): nat {
    if n + 1 < U64 then n + 1 else n
  }

  /** The reply text, the capture after it and the client's batch counter. */
  function Finish(c: Capture, prefix: string, id: nat, counter: nat): (string, Capture, nat) {
    var cleared := c.(replyFor := None, buf := [], labelValue := None, selfMsg := false, bypass := false);
    if c.buf == [] && (c.labelValue.None? || c.selfMsg) then ("", cleared, counter)
    else if c.labelValue.Some? && |c.buf| > 1 then
      var n := NextBatch(counter);
      (Frame(prefix, c.buf, c.labelValue, Some(BatchRef(id, n))), cleared, n)
    else (Frame(prefix, c.buf, c.labelValue, None), cleared, counter)
  }

  // ---- what the client sees ----

  /** The messages of a text, each with its terminator. */
  function Messages(text: string): seq<string>
    decreases |text|
  {
    if text == "" then []
    else
      var i := IndexOf(text, '\n');
      if i == |text| then [text] else [text[..i + 1]] + Messages(text[i + 1..])
  }

  /** One message: CR-LF at the end, and no line feed before that. */
  predicate Terminated(line: string) {
    EndsCrLf(line) && '\n' !in line[..|line| - 1]
  }

  ghost predicate AllTerminated(lines: seq<string>) {
    forall i :: 0 <= i < |lines| ==> Terminated(lines[i])
  }

  /** Tags of a message, which end at the first space. */
  function TagsOf(message: string): seq<Tag> {
    if message == "" || message[0] != '@' then []
    else ParseTags(message[1..][..IndexOf(message[1..], ' ')])
  }

  /** The message without its first tag. */
  function Untag(message: string): string {
    if message == "" || message[0] != '@' then message
    else
      var rest := message[1..];
      var semi, space := IndexOf(rest, ';'), IndexOf(rest, ' ');
      if semi < space then "@" + rest[semi + 1..]
      else if space < |rest| then rest[space + 1..]
      else message
  }

  function UntagAll(messages: seq<string>): (r: seq<string>)
    ensures |r| == |messages| && forall i :: 0 <= i < |r| ==> r[i] == Untag(messages[i])
  {
    seq(|messages|, i requires 0 <= i < |messages| => Untag(messages[i]))
  }

  /** A labelled reply taken apart: one message, or the inside of a batch. */
  function Unframe(text: string): seq<string> {
    var m := Messages(text);
    if |m| <= 2 then UntagAll(m) else UntagAll(m[1..|m| - 1])
  }

  // ---- unframing gives back the lines ----

  lemma MessagesFirst(line: string, rest: string)
    requires Terminated(line)
    ensures Messages(line + rest) == [line] + Messages(rest)
  {
    var body := line[..|line| - 1];
    assert line == body + ['\n'];
    assert line + rest == body + ['\n'] + rest;
    IndexOfAt(body, '\n', rest);
    assert (line + rest)[..|line|] == line && (line + rest)[|line|..] == rest;
  }

  lemma {:induction false} MessagesConcat(lines: seq<string>)
    requires AllTerminated(lines)
    ensures Messages(Concat(lines)) == lines
    decreases |lines|
  {
    hide Terminated, Messages;
    if lines == [] {
      MessagesNone();
    } else {
      MessagesFirst(lines[0], Concat(lines[1..]));
      MessagesConcat(lines[1..]);
      assert lines == [lines[0]] + lines[1..];
    }
  }

  lemma MessagesNone()
    ensures Messages("") == []
  {
  }

  /** A tag list entry that can be put in front. */
  predicate PlainTag(tag: string) {
    tag != "" && TagSafe(tag)
  }

  lemma WithTagShape(line: string, tag: string)
    requires Terminated(line) && PlainTag(tag)
    ensures WithTag(line, tag) == if line[0] == '@' then "@" + tag + ";" + line[1..] else "@" + tag + " " + line
  {
    var body := line[..|line| - 2];
    assert line == body + CrLf;
    if body != "" && body[0] == '@' {
      assert line[1..] == body[1..] + CrLf;
      assert "@" + tag + ";" + (body[1..] + CrLf) == "@" + tag + ";" + body[1..] + CrLf;
    } else {
      assert "@" + tag + " " + (body + CrLf) == "@" + tag + " " + body + CrLf;
    }
  }

  lemma TagTerminated(line: string, tag: string)
    requires Terminated(line) && PlainTag(tag)
    ensures Terminated(WithTag(line, tag))
  {
    hide WithTag;
    WithTagShape(line, tag);
    var r := WithTag(line, tag);
    var head := if line[0] == '@' then "@" + tag + ";" else "@" + tag + " ";
    var tail := if line[0] == '@' then line[1..] else line;
    assert r == head + tail && |tail| >= 2;
    assert r[..|r| - 1] == head + tail[..|tail| - 1];
  }

  lemma UntagTagged(line: string, tag: string)
    requires Terminated(line) && PlainTag(tag)
    ensures Untag(WithTag(line, tag)) == line
  {
    hide WithTag, Untag;
    WithTagShape(line, tag);
    if line[0] == '@' {
      UntagMerged(tag, line[1..]);
      assert line == "@" + line[1..];
    } else {
      UntagAdded(tag, line);
    }
  }

  lemma UntagMerged(tag: string, tail: string)
    requires PlainTag(tag)
    ensures Untag("@" + tag + ";" + tail) == "@" + tail
  {
    hide IndexOf;
    var rest := tag + ";" + tail;
    AfterAt(tag + ";", tail);
    assert "@" + tag + ";" + tail == "@" + (tag + ";") + tail;
    IndexOfAt(tag, ';', tail);
    IndexLater(tag, ';', tail, ' ');
    assert rest[|tag| + 1..] == tail;
  }

  lemma UntagAdded(tag: string, line: string)
    requires PlainTag(tag)
    ensures Untag("@" + tag + " " + line) == line
  {
    hide IndexOf;
    var rest := tag + " " + line;
    AfterAt(tag + " ", line);
    assert "@" + tag + " " + line == "@" + (tag + " ") + line;
    IndexOfAt(tag, ' ', line);
    IndexLater(tag, ' ', line, ';');
    assert rest[|tag| + 1..] == line;
  }

  lemma IndexLater(a: string, sep: char, b: string, c: char)
    requires c !in a && c != sep
    ensures IndexOf(a + [sep] + b, c) == |a| + 1 + IndexOf(b, c)
    decreases |a|
  {
    var s := a + [sep] + b;
    if a == "" {
      assert s[1..] == b;
    } else {
      assert s[1..] == a[1..] + [sep] + b;
      IndexLater(a[1..], sep, b, c);
    }
  }

  lemma TagsMerged(tag: string, tail: string)
    requires PlainTag(tag)
    ensures TagsOf("@" + tag + ";" + tail) == ParseTags(tag + ";" + tail[..IndexOf(tail, ' ')])
  {
    hide ParseTags, IndexOf, TagsOf;
    var rest, n := tag + ";" + tail, IndexOf(tail, ' ');
    var whole := "@" + tag + ";" + tail;
    AfterAt(tag + ";", tail);
    assert whole == "@" + (tag + ";") + tail;
    TagsOfTagged(whole);
    IndexLater(tag, ';', tail, ' ');
    TakeInto(tag + ";", tail, n);
  }

  lemma AfterAt(a: string, b: string)
    ensures var s := "@" + a + b; s != "" && s[0] == '@' && s[1..] == a + b
  {
  }

  lemma TakeInto(a: string, b: string, n: nat)
    requires n <= |b|
    ensures (a + b)[..|a| + n] == a + b[..n]
  {
  }

  lemma TagsAdded(tag: string, line: string)
    requires PlainTag(tag)
    ensures TagsOf("@" + tag + " " + line) == ParseTags(tag)
  {
    hide ParseTags;
    var rest := tag + " " + line;
    assert "@" + tag + " " + line == "@" + rest && ("@" + rest)[1..] == rest;
    IndexOfAt(tag, ' ', line);
    assert rest[..|tag|] == tag;
  }

  predicate TagKey(key: string) {
    key != "" && TagSafe(key) && '=' !in key
  }

  lemma TagIsPlain(key: string, value: string)
    requires TagKey(key)
    ensures PlainTag(key + "=" + Escape(value))
  {
    hide Escape;
    EscapeSafe(value);
  }

  /** Putting a tag in front adds exactly that tag, ahead of the others. */
  lemma TagsTagged(line: string, key: string, value: string)
    requires Terminated(line) && TagKey(key)
    ensures TagsOf(WithTag(line, key + "=" + Escape(value))) == [(key, Some(value))] + TagsOf(line)
  {
    hide WithTag, Escape, ParseTags, TagsOf;
    var tag := key + "=" + Escape(value);
    TagIsPlain(key, value);
    WithTagShape(line, tag);
    if line[0] == '@' {
      var tail := line[1..];
      TagsMerged(tag, tail);
      FirstTag(key, value, tail[..IndexOf(tail, ' ')]);
      TagsOfTagged(line);
    } else {
      TagsAdded(tag, line);
      FirstTag(key, value, "");
      UntaggedHasNone(line);
      assert [(key, Some(value))] + [] == [(key, Some(value))];
    }
  }

  lemma TagsOfTagged(line: string)
    requires line != "" && line[0] == '@'
    ensures TagsOf(line) == ParseTags(line[1..][..IndexOf(line[1..], ' ')])
  {
  }

  lemma UntaggedHasNone(line: string)
    requires line == "" || line[0] != '@'
    ensures TagsOf(line) == []
  {
  }

  // ---- a framed reply ----

  /** The server's own prefix: a colon and its name. */
  predicate ServerPrefix(prefix: string) {
    prefix != "" && prefix[0] == ':' && '\n' !in prefix
  }

  /** A batch reference: nothing a tag value would have to escape. */
  predicate Reference(r: string) {
    r != "" && TagSafe(r) && '\\' !in r
  }

  lemma {:induction false} EscapePlain(s: string)
    requires TagSafe(s) && '\\' !in s
    ensures Escape(s) == s
    decreases |s|
  {
    if s != "" {
      EscapePlain(s[1..]);
      assert EscapeChar(s[0]) == [s[0]] && s == [s[0]] + s[1..];
    }
  }

  lemma DecimalReference(n: nat)
    ensures Reference(Decimal(n)) && '-' !in Decimal(n)
  {
    assert forall i :: 0 <= i < |Decimal(n)| ==> Digit(Decimal(n)[i]);
  }

  lemma BatchRefIs(id: nat, n: nat)
    ensures Reference(BatchRef(id, n))
  {
    hide Decimal;
    DecimalReference(id);
    DecimalReference(n);
  }

  /** References of different clients or different counts differ. */
  lemma BatchRefsDistinct(id1: nat, n1: nat, id2: nat, n2: nat)
    ensures BatchRef(id1, n1) == BatchRef(id2, n2) <==> id1 == id2 && n1 == n2
  {
    hide Decimal;
    if BatchRef(id1, n1) == BatchRef(id2, n2) {
      CutReference(id1, n1);
      CutReference(id2, n2);
      NumberOfDecimal(id1); NumberOfDecimal(id2); NumberOfDecimal(n1); NumberOfDecimal(n2);
    }
  }

  lemma CutReference(id: nat, n: nat)
    ensures var r := BatchRef(id, n); var i := IndexOf(r, '-');
      1 <= i < |r| && r[1..i] == Decimal(id) && r[i + 1..] == Decimal(n)
  {
    hide Decimal;
    var head := "b" + Decimal(id);
    DecimalReference(id);
    assert '-' !in head;
    IndexOfAt(head, '-', Decimal(n));
    assert BatchRef(id, n) == head + ['-'] + Decimal(n);
  }

  lemma OpenTerminated(prefix: string, reference: string)
    requires ServerPrefix(prefix) && Reference(reference)
    ensures OpenLine(prefix, reference) != "" && CloseLine(prefix, reference) != ""
    ensures Terminated(OpenLine(prefix, reference)) && OpenLine(prefix, reference)[0] == ':'
    ensures Terminated(CloseLine(prefix, reference)) && CloseLine(prefix, reference)[0] == ':'
  {
    ProtoLineTerminated(prefix, "BATCH", "+" + reference + " labeled-response");
    ProtoLineTerminated(prefix, "BATCH", "-" + reference);
  }

  lemma ProtoLineTerminated(prefix: string, keyword: string, tail: string)
    requires ServerPrefix(prefix) && '\n' !in keyword && '\n' !in tail
    ensures var line := ProtoLine(prefix, keyword, tail); line != "" && Terminated(line) && line[0] == ':'
  {
    var body := prefix + " " + keyword + (if tail == "" then "" else " " + tail);
    var line := ProtoLine(prefix, keyword, tail);
    assert line == body + "\r\n";
    assert line[..|line| - 1] == body + ['\r'];
  }

  /** Messages of a labelled reply of several lines: the opening, the lines, the closing. */
  ghost function Framed(prefix: string, lines: seq<string>, value: string, reference: string): seq<string> {
    [WithTag(OpenLine(prefix, reference), LabelTag(value))] + WithTags(lines, "batch=" + reference) + [CloseLine(prefix, reference)]
  }

  lemma BatchTag(reference: string)
    requires Reference(reference)
    ensures "batch=" + reference == "batch" + "=" + Escape(reference) && PlainTag("batch=" + reference)
  {
    EscapePlain(reference);
    TagIsPlain("batch", reference);
  }

  lemma LabelIsTag(value: string)
    ensures LabelTag(value) == "label" + "=" + Escape(value) && PlainTag(LabelTag(value))
  {
    TagIsPlain("label", value);
  }

  lemma BatchMessages(prefix: string, lines: seq<string>, value: string, reference: string)
    requires ServerPrefix(prefix) && Reference(reference) && AllTerminated(lines) && |lines| > 1
    ensures Messages(Frame(prefix, lines, Some(value), Some(reference))) == Framed(prefix, lines, value, reference)
  {
    hide Messages, Terminated, WithTag, OpenLine, CloseLine, LabelTag, Reference, ServerPrefix;
    var first, last := WithTag(OpenLine(prefix, reference), LabelTag(value)), CloseLine(prefix, reference);
    var inner := WithTags(lines, "batch=" + reference);
    OpenTerminated(prefix, reference);
    LabelIsTag(value);
    BatchTag(reference);
    TagTerminated(OpenLine(prefix, reference), LabelTag(value));
    forall i | 0 <= i < |inner| ensures Terminated(inner[i]) {
      TagTerminated(lines[i], "batch=" + reference);
    }
    var all := [first] + inner + [last];
    ConcatSnoc([first] + inner, last);
    assert ([first] + inner)[1..] == inner;
    MessagesConcat(all);
  }

  /** A labelled reply of at least one line unframes to exactly those lines. */
  lemma UnframeFramed(prefix: string, lines: seq<string>, value: string, reference: string)
    requires ServerPrefix(prefix) && Reference(reference) && AllTerminated(lines) && lines != []
    ensures Unframe(Frame(prefix, lines, Some(value), Some(reference))) == lines
  {
    hide Messages, Terminated, WithTag, OpenLine, CloseLine, LabelTag, Reference, ServerPrefix, Untag;
    LabelIsTag(value);
    BatchTag(reference);
    if |lines| == 1 {
      var m := WithTag(lines[0], LabelTag(value));
      OneMessage(lines[0], LabelTag(value));
      assert UntagAll([m]) == lines;
    } else {
      BatchMessages(prefix, lines, value, reference);
      var all := Framed(prefix, lines, value, reference);
      var inner := WithTags(lines, "batch=" + reference);
      assert all[1..|all| - 1] == inner;
      forall i | 0 <= i < |lines| ensures Untag(inner[i]) == lines[i] {
        UntagTagged(lines[i], "batch=" + reference);
      }
      assert UntagAll(inner) == lines;
    }
  }

  lemma OneMessage(line: string, tag: string)
    requires Terminated(line) && PlainTag(tag)
    ensures Messages(WithTag(line, tag)) == [WithTag(line, tag)] && Untag(WithTag(line, tag)) == line
  {
    hide Messages, Terminated, WithTag, Untag;
    var m := WithTag(line, tag);
    TagTerminated(line, tag);
    MessagesFirst(m, "");
    MessagesNone();
    assert m + "" == m;
    UntagTagged(line, tag);
  }

  // ---- where the label and the batch tag are ----

  function LabelsIn(tags: seq<Tag>): nat {
    if tags == [] then 0 else (if tags[0].0 == "label" then 1 else 0) + LabelsIn(tags[1..])
  }

  /** Label tags over all the messages. */
  function Labels(messages: seq<string>): nat {
    if messages == [] then 0 else LabelsIn(TagsOf(messages[0])) + Labels(messages[1..])
  }

  lemma LabelsInCons(t: Tag, rest: seq<Tag>)
    ensures LabelsIn([t] + rest) == (if t.0 == "label" then 1 else 0) + LabelsIn(rest)
  {
    assert ([t] + rest)[1..] == rest;
  }

  lemma {:induction false} LabelsConcat(a: seq<string>, b: seq<string>)
    ensures Labels(a + b) == Labels(a) + Labels(b)
    decreases |a|
  {
    hide TagsOf;
    if a == [] {
      assert a + b == b;
    } else {
      assert (a + b)[1..] == a[1..] + b;
      LabelsConcat(a[1..], b);
    }
  }

  lemma {:induction false} LabelsBatched(lines: seq<string>, reference: string)
    requires AllTerminated(lines) && Reference(reference)
    ensures Labels(WithTags(lines, "batch=" + reference)) == Labels(lines)
    decreases |lines|
  {
    hide TagsOf, Terminated, WithTag, Reference;
    if lines != [] {
      var tag := "batch=" + reference;
      BatchTag(reference);
      TagsTagged(lines[0], "batch", reference);
      LabelsInCons(("batch", Some(reference)), TagsOf(lines[0]));
      LabelsBatched(lines[1..], reference);
      assert WithTags(lines, tag)[1..] == WithTags(lines[1..], tag);
    }
  }

  /**
   * The frame adds the label to exactly one message, the first, where it reads back as the client
   * sent it; no label tag of the captured lines themselves is lost or doubled.
   */
  lemma LabelOnce(prefix: string, lines: seq<string>, value: string, reference: string)
    requires ServerPrefix(prefix) && Reference(reference) && AllTerminated(lines)
    ensures var m := Messages(Frame(prefix, lines, Some(value), Some(reference)));
      && Labels(m) == 1 + Labels(lines)
      && |m| > 0 && TagsOf(m[0]) != [] && TagsOf(m[0])[0] == ("label", Some(value))
  {
    hide Messages, Terminated, WithTag, OpenLine, CloseLine, LabelTag, Reference, ServerPrefix, TagsOf, LabelsIn,
      Framed, ProtoLine;
    LabelIsTag(value);
    if |lines| <= 1 {
      if lines == [] {
        ProtoLineTerminated(prefix, "ACK", "");
      }
      var line := if lines == [] then ProtoLine(prefix, "ACK", "") else lines[0];
      if lines == [] {
        UntaggedLabels(line);
      } else {
        assert lines == [line];
      }
      OneLabel(line, value);
      LabelsOne(line);
    } else {
      BatchMessages(prefix, lines, value, reference);
      LabelsFramed(prefix, lines, value, reference);
    }
  }

  lemma LabelsOne(line: string)
    ensures Labels([line]) == LabelsIn(TagsOf(line))
  {
    assert [line][1..] == [];
  }

  lemma UntaggedLabels(line: string)
    requires line != "" && line[0] == ':'
    ensures LabelsIn(TagsOf(line)) == 0 && Labels([line]) == 0
  {
    LabelsOne(line);
  }

  lemma OneLabel(line: string, value: string)
    requires Terminated(line)
    ensures var m := WithTag(line, LabelTag(value));
      && Messages(m) == [m] && TagsOf(m) == [("label", Some(value))] + TagsOf(line)
      && Labels([m]) == 1 + LabelsIn(TagsOf(line))
  {
    hide Messages, Terminated, WithTag, TagsOf, LabelTag;
    LabelIsTag(value);
    var m := WithTag(line, LabelTag(value));
    OneMessage(line, LabelTag(value));
    TagsTagged(line, "label", value);
    LabelsInCons(("label", Some(value)), TagsOf(line));
    LabelsOne(m);
  }

  lemma LabelsFramed(prefix: string, lines: seq<string>, value: string, reference: string)
    requires ServerPrefix(prefix) && Reference(reference) && AllTerminated(lines)
    ensures var m := Framed(prefix, lines, value, reference);
      && Labels(m) == 1 + Labels(lines)
      && TagsOf(m[0]) != [] && TagsOf(m[0])[0] == ("label", Some(value))
  {
    hide Terminated, WithTag, OpenLine, CloseLine, LabelTag, Reference, ServerPrefix, TagsOf, LabelsIn;
    var open, close := OpenLine(prefix, reference), CloseLine(prefix, reference);
    OpenTerminated(prefix, reference);
    UntaggedLabels(open);
    UntaggedLabels(close);
    OneLabel(open, value);
    var first, inner := WithTag(open, LabelTag(value)), WithTags(lines, "batch=" + reference);
    LabelsBatched(lines, reference);
    LabelsConcat([first], inner);
    LabelsConcat([first] + inner, [close]);
  }

  /** A batch is opened by the first message and closed by the last, and every message between carries its tag. */
  lemma BatchWrapsAll(prefix: string, lines: seq<string>, value: string, reference: string)
    requires ServerPrefix(prefix) && Reference(reference) && AllTerminated(lines) && |lines| > 1
    ensures var m := Messages(Frame(prefix, lines, Some(value), Some(reference)));
      && |m| == |lines| + 2
      && Untag(m[0]) == OpenLine(prefix, reference) && m[|m| - 1] == CloseLine(prefix, reference)
      && forall i :: 0 <= i < |lines| ==> TagsOf(m[i + 1]) == [("batch", Some(reference))] + TagsOf(lines[i])
  {
    hide Messages, Terminated, WithTag, OpenLine, CloseLine, LabelTag, Reference, ServerPrefix, TagsOf, Untag, Framed, Frame;
    BatchMessages(prefix, lines, value, reference);
    OpenTerminated(prefix, reference);
    LabelIsTag(value);
    UntagTagged(OpenLine(prefix, reference), LabelTag(value));
    FramedParts(prefix, lines, value, reference);
    BatchTag(reference);
    forall i | 0 <= i < |lines|
      ensures TagsOf(WithTag(lines[i], "batch=" + reference)) == [("batch", Some(reference))] + TagsOf(lines[i])
    {
      TagsTagged(lines[i], "batch", reference);
    }
  }

  lemma FramedParts(prefix: string, lines: seq<string>, value: string, reference: string)
    ensures var m := Framed(prefix, lines, value, reference);
      && |m| == |lines| + 2 && m[0] == WithTag(OpenLine(prefix, reference), LabelTag(value))
      && m[|m| - 1] == CloseLine(prefix, reference)
      && forall i :: 0 <= i < |lines| ==> m[i + 1] == WithTag(lines[i], "batch=" + reference)
  {
    hide WithTag, OpenLine, CloseLine, LabelTag;
    var m, inner := Framed(prefix, lines, value, reference), WithTags(lines, "batch=" + reference);
    assert forall i :: 0 <= i < |lines| ==> m[i + 1] == inner[i];
  }

  // ---- from command to client ----

  /** The label a client may use: present, at most 64 bytes, and free of NUL, CR and LF. */
  function ClientLabel(labeledResponse: bool, batch: bool, tags: seq<Tag>): Option<string> {
    if !labeledResponse || !batch then None
    else
      var value := FirstLabel(tags);
      if value.None? || value.value == "" || Bytes(value.value) > 64 then None
      else if '\0' in value.value || '\r' in value.value || '\n' in value.value then None
      else value
  }

  predicate IsLabel(key: string) {
    |key| == 5 && (key[0] == 'l' || key[0] == 'L') && (key[1] == 'a' || key[1] == 'A') && (key[2] == 'b' || key[2] == 'B')
    && (key[3] == 'e' || key[3] == 'E') && (key[4] == 'l' || key[4] == 'L')
  }

  function FirstLabel(tags: seq<Tag>): Option<string> {
    if tags == [] then None else if IsLabel(tags[0].0) then tags[0].1 else FirstLabel(tags[1..])
  }

  /** What a client may ask to be labelled with. */
  predicate LabelOk(v: string) {
    v != "" && Bytes(v) <= 64 && '\0' !in v && '\r' !in v && '\n' !in v
  }

  /** White space that escaping leaves alone and the parser does not. */
  predicate Splits(c: char) {
    c == '\t' || c as int == 12
  }

  lemma {:induction false} EscapeSolid(v: string)
    requires forall i :: 0 <= i < |v| ==> !Splits(v[i])
    ensures Solid(Escape(v))
    decreases |v|
  {
    if v != "" {
      EscapeSolid(v[1..]);
      var c := v[0];
      assert Solid(EscapeChar(c)) && Escape(v) == EscapeChar(c) + Escape(v[1..]);
    }
  }

  lemma {:induction false} UnescapeUnsplit(s: string)
    requires Solid(s)
    ensures forall i :: 0 <= i < |Unescape(s)| ==> !Splits(Unescape(s)[i])
    decreases |s|
  {
    if s != "" {
      if s[0] != '\\' {
        UnescapeUnsplit(s[1..]);
      } else if |s| > 1 {
        UnescapeUnsplit(s[2..]);
      }
    }
  }

  lemma TagsRead(line: string)
    requires line != "" && line[0] == '@' && Proto.Parse(line).Some?
    ensures var n := FirstSpace(line[1..]); Proto.Parse(line).value.tags == ParseTags(line[1..][..n])
  {
    hide ParseTags;
  }

  /**
   * A labelled command gives back the label its client escaped, exactly when the label holds neither
   * tab nor form feed: those pass through escaping and end the tags early.
   */
  lemma LabelReadBack(v: string, body: string)
    requires LabelOk(v)
    requires Proto.Parse("@label=" + Escape(v) + " " + body).Some?
    ensures ClientLabel(true, true, Proto.Parse("@label=" + Escape(v) + " " + body).value.tags) == Some(v)
        <==> Unsplit(v)
  {
    hide Proto.Parse, ParseTags, Escape, Unescape;
    var line := "@label=" + Escape(v) + " " + body;
    var head := "label=" + Escape(v);
    var n := FirstSpace(line[1..]);
    assert line[1..] == head + (" " + body);
    TagsRead(line);
    if Unsplit(v) {
      EscapeSolid(v);
      HeadSolid(Escape(v));
      FirstSpaceAt(head, " " + body);
      assert line[1..][..n] == head && head == "label" + "=" + Escape(v);
      FirstTag("label", v, "");
      assert [("label", Some(v))][0].0 == "label";
    } else {
      ReadUnsplit(line[1..][..n]);
    }
  }

  lemma HeadSolid(s: string)
    ensures Solid("label=" + s) <==> Solid(s)
  {
    assert forall i :: 0 <= i < |s| ==> ("label=" + s)[i + 6] == s[i];
  }

  ghost predicate Unsplit(s: string) {
    forall i :: 0 <= i < |s| ==> !Splits(s[i])
  }

  ghost predicate UnsplitTags(tags: seq<Tag>) {
    forall i :: 0 <= i < |tags| ==> tags[i].1.Some? ==> Unsplit(tags[i].1.value)
  }

  ghost predicate AllSolid(parts: seq<string>) {
    forall i :: 0 <= i < |parts| ==> Solid(parts[i])
  }

  lemma {:induction false} SplitSolid(s: string, c: char)
    requires Solid(s)
    ensures AllSolid(Split(s, c))
    decreases |s|
  {
    var i := IndexOf(s, c);
    if i < |s| {
      SplitSolid(s[i + 1..], c);
      var rest := Split(s[i + 1..], c);
      assert Solid(s[..i]) && AllSolid(rest);
    }
  }

  lemma {:induction false} EachUnsplit(parts: seq<string>)
    requires AllSolid(parts)
    ensures UnsplitTags(ParseEach(parts))
    decreases |parts|
  {
    hide Unescape;
    if parts != [] {
      EachUnsplit(parts[1..]);
      var i := IndexOf(parts[0], '=');
      if i < |parts[0]| {
        UnescapeUnsplit(parts[0][i + 1..]);
      }
    }
  }

  lemma {:induction false} FirstUnsplit(tags: seq<Tag>)
    requires UnsplitTags(tags)
    ensures FirstLabel(tags).Some? ==> Unsplit(FirstLabel(tags).value)
    decreases |tags|
  {
    if tags != [] && !IsLabel(tags[0].0) {
      FirstUnsplit(tags[1..]);
    }
  }

  /** No label the parser reads holds a tab or form feed. */
  lemma ReadUnsplit(text: string)
    requires Solid(text)
    ensures var r := ClientLabel(true, true, ParseTags(text)); r.Some? ==> Unsplit(r.value)
  {
    hide Split, ParseEach;
    SplitSolid(text, ';');
    EachUnsplit(Split(text, ';'));
    FirstUnsplit(ParseTags(text));
  }

  /** Whether the client sent itself a message while the command ran. */
  predicate SentToSelf(acts: seq<Act>) {
    exists i :: 0 <= i < |acts| && acts[i].BypassOn?
  }

  lemma {:induction false} SelfMsgKept(c: Capture, acts: seq<Act>)
    ensures DoAll(c, acts).selfMsg == (c.selfMsg || SentToSelf(acts))
    decreases |acts|
  {
    if acts != [] {
      SelfMsgKept(Do(c, acts[0]), acts[1..]);
      assert forall i :: 1 <= i < |acts| ==> acts[i] == acts[1..][i - 1];
    }
  }

  /** The text written to the client after a command. */
  function ReplyText(c: Capture, prefix: string, id: nat, counter: nat, labelValue: Option<string>, acts: seq<Act>): string {
    Finish(DoAll(Begin(c, id, labelValue), acts), prefix, id, counter).0
  }

  /** Without a label the reply is the owed lines as they are. */
  lemma PlainReply(c: Capture, prefix: string, id: nat, counter: nat, acts: seq<Act>)
    requires AllTerminated(Owed(id, false, acts))
    ensures Messages(ReplyText(c, prefix, id, counter, None, acts)) == Owed(id, false, acts)
  {
    hide Messages, AllTerminated;
    CaptureComplete(c, id, None, acts);
    MessagesConcat(Owed(id, false, acts));
    if Owed(id, false, acts) == [] {
      MessagesNone();
    }
  }

  /**
   * With a label and at least one owed line, the client takes the reply apart into exactly the owed
   * lines, in order, and finds the label it sent on one message more than the lines carry themselves.
   */
  lemma LabelledReply(c: Capture, prefix: string, id: nat, counter: nat, value: string, acts: seq<Act>)
    requires ServerPrefix(prefix) && AllTerminated(Owed(id, false, acts)) && Owed(id, false, acts) != []
    ensures var text := ReplyText(c, prefix, id, counter, Some(value), acts);
      && Unframe(text) == Owed(id, false, acts)
      && Labels(Messages(text)) == 1 + Labels(Owed(id, false, acts))
      && |Messages(text)| > 0 && |TagsOf(Messages(text)[0])| > 0 && TagsOf(Messages(text)[0])[0] == ("label", Some(value))
  {
    hide Messages, AllTerminated, ServerPrefix, Unframe, Labels, TagsOf, BatchRef, Reference, DoAll, Owed;
    var lines := Owed(id, false, acts);
    CaptureComplete(c, id, Some(value), acts);
    var reference := BatchRef(id, NextBatch(counter));
    BatchRefIs(id, NextBatch(counter));
    FrameOfOne(prefix, lines, value, reference);
    UnframeFramed(prefix, lines, value, reference);
    LabelOnce(prefix, lines, value, reference);
  }

  /** A single line needs no batch. */
  lemma FrameOfOne(prefix: string, lines: seq<string>, value: string, reference: string)
    ensures |lines| <= 1 ==> Frame(prefix, lines, Some(value), None) == Frame(prefix, lines, Some(value), Some(reference))
  {
  }

  /** A labelled command that owes nothing is acknowledged once, unless the client only messaged itself. */
  lemma EmptyReply(c: Capture, prefix: string, id: nat, counter: nat, value: string, acts: seq<Act>)
    requires ServerPrefix(prefix) && Owed(id, false, acts) == []
    ensures var text := ReplyText(c, prefix, id, counter, Some(value), acts);
      if SentToSelf(acts) then text == ""
      else UntagAll(Messages(text)) == [ProtoLine(prefix, "ACK", "")] && TagsOf(text) == [("label", Some(value))]
  {
    hide Messages, ServerPrefix, TagsOf, DoAll, Owed, ProtoLine, WithTag, LabelTag, Terminated, Untag;
    CaptureComplete(c, id, Some(value), acts);
    SelfMsgKept(Begin(c, id, Some(value)), acts);
    var ack := ProtoLine(prefix, "ACK", "");
    ProtoLineTerminated(prefix, "ACK", "");
    OneLabel(ack, value);
    LabelIsTag(value);
    OneMessage(ack, LabelTag(value));
    UntaggedHasNone(ack);
    assert [("label", Some(value))] + [] == [("label", Some(value))];
    var m := WithTag(ack, LabelTag(value));
    assert UntagAll([m]) == [ack];
  }

  // ---- one client's batches ----

  predicate Batched(c: Capture) {
    c.labelValue.Some? && |c.buf| > 1
  }

  /** The references of the batches among a client's replies, one reply after the other. */
  function References(cs: seq<Capture>, prefix: string, id: nat, counter: nat): seq<string>
    decreases |cs|
  {
    if cs == [] then []
    else
      var next := Finish(cs[0], prefix, id, counter).2;
      (if Batched(cs[0]) then [BatchRef(id, next)] else []) + References(cs[1..], prefix, id, next)
  }

  lemma {:induction false} ReferenceAt(cs: seq<Capture>, prefix: string, id: nat, counter: nat, i: nat)
    requires counter < U64 && i < |References(cs, prefix, id, counter)|
    ensures References(cs, prefix, id, counter)[i] == BatchRef(id, if counter + 1 + i < U64 then counter + 1 + i else U64 - 1)
    decreases |cs|
  {
    hide Frame, BatchRef;
    var next := Finish(cs[0], prefix, id, counter).2;
    if !Batched(cs[0]) {
      ReferenceAt(cs[1..], prefix, id, next, i);
    } else if i > 0 {
      ReferenceAt(cs[1..], prefix, id, next, i - 1);
    }
  }

  /** A client's batch references never repeat, until the 64-bit counter stops at its last value. */
  lemma ReferencesDistinctIff(cs: seq<Capture>, prefix: string, id: nat)
    ensures NoRepeats(References(cs, prefix, id, 0)) <==> |References(cs, prefix, id, 0)| < U64
  {
    hide References, BatchRef;
    var r := References(cs, prefix, id, 0);
    forall i | 0 <= i < |r| ensures r[i] == BatchRef(id, if 1 + i < U64 then 1 + i else U64 - 1) {
      ReferenceAt(cs, prefix, id, 0, i);
    }
    if |r| < U64 {
      forall i, j | 0 <= i < j < |r| ensures r[i] != r[j] {
        BatchRefsDistinct(id, 1 + i, id, 1 + j);
      }
    } else {
      assert r[U64 - 2] == r[U64 - 1];
    }
  }

  // ---- the capture as it is kept ----

  class ReplyBuffer {
    var replyFor: Option<nat>
    var buf: seq<string>
    var labelValue: Option<string>
    var selfMsg: bool
    var bypass: bool
    var sent: seq<(nat, string)>

    ghost function View(): Capture
      reads this
    {
      Capture(replyFor, buf, labelValue, selfMsg, bypass, sent)
    }

    constructor ()
      ensures View() == Capture(None, [], None, false, false, [])
    {
      replyFor, buf, labelValue, selfMsg, bypass, sent := None, [], None, false, false, [];
    }

    method BeginReply(id: nat, labelValue: Option<string>)
      modifies this
      ensures View() == Begin(old(View()), id, labelValue)
    {
      replyFor := Some(id);
      selfMsg := false;
      bypass := false;
      buf := [];
      this.labelValue := labelValue;
    }

    method DeliverLine(id: nat, line: string, accepted: bool)
      modifies this
      ensures View() == Do(old(View()), Line(id, line, accepted))
    {
      if replyFor == Some(id) && !bypass {
        buf := buf + [line];
        return;
      }
      if accepted {
        sent := sent + [(id, line)];
      }
    }

    /** A message from the client to itself goes out beside the reply. */
    method DeliverToSelf(id: nat, line: string, accepted: bool)
      modifies this
      ensures View() == DoAll(old(View()), [BypassOn, Line(id, line, accepted), BypassOff])
    {
      ghost var acts := [BypassOn, Line(id, line, accepted), BypassOff];
      assert acts[1..] == [Line(id, line, accepted), BypassOff] && acts[1..][1..] == [BypassOff];
      ghost var c1 := Do(View(), BypassOn);
      ghost var c2 := Do(c1, Line(id, line, accepted));
      assert DoAll(View(), acts) == DoAll(c1, acts[1..]) == DoAll(c2, [BypassOff]);
      assert [BypassOff][1..] == [] && DoAll(c2, [BypassOff]) == Do(c2, BypassOff);
      selfMsg := true;
      bypass := true;
      DeliverLine(id, line, accepted);
      bypass := false;
    }

    method FinishReply(prefix: string, id: nat, counter: nat) returns (text: string, counter': nat)
      modifies this
      ensures (text, View(), counter') == Finish(old(View()), prefix, id, counter)
    {
      hide Frame, BatchRef;
      var lines, value, toSelf := buf, labelValue, selfMsg;
      buf, labelValue, selfMsg, replyFor, bypass := [], None, false, None, false;
      counter' := counter;
      if lines == [] && (value.None? || toSelf) {
        return "", counter';
      }
      var batch: Option<string> := None;
      if value.Some? && |lines| > 1 {
        counter' := NextBatch(counter);
        batch := Some(BatchRef(id, counter'));
      }
      text := FrameReply(prefix, lines, value, batch);
    }
  }

  /** Group the lines into the text the client should see. */
  method FrameReply(prefix: string, lines: seq<string>, labelValue: Option<string>,
          batch: Option<string>) returns (out: string)
    ensures out == Frame(prefix, lines, labelValue, batch)
  {
    hide WithTag, OpenLine, CloseLine, LabelTag, ProtoLine;
    if labelValue.None? {
      return Concat(lines);
    }
    var tag := LabelTag(labelValue.value);
    if lines == [] {
      return WithTag(ProtoLine(prefix, "ACK", ""), tag);
    }
    if |lines| == 1 || batch.None? {
      return if |lines| == 1 then WithTag(lines[0], tag) else Concat(lines);
    }
    var batchTag := "batch=" + batch.value;
    var first := WithTag(OpenLine(prefix, batch.value), tag);
    out := first;
    var i := 0;
    ghost var inner := WithTags(lines, batchTag);
    while i < |lines|
      invariant 0 <= i <= |lines|
      invariant out == first + Concat(inner[..i])
    {
      ConcatSnoc(inner[..i], inner[i]);
      assert inner[..i + 1] == inner[..i] + [inner[i]];
      assert first + Concat(inner[..i]) + inner[i] == first + (Concat(inner[..i]) + inner[i]);
      out := out + WithTag(lines[i], batchTag);
      i := i + 1;
    }
    assert inner[..i] == inner;
    out := out + CloseLine(prefix, batch.value);
  }
}
