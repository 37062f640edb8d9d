/**
 Reading content, usage and model back out of a captured response body, streamed or not
 (extractResponseContent, extractUsageFromResponse, detectModelFromResponseBody).

 A streamed body is lines of the event stream format (sections 9.2.5 and 9.2.6 of the WHATWG HTML
 Living Standard), restricted as in the source to one whole JSON value per `data:` line.
 */
module ResponseParsing {
  import opened Wrappers
  import opened Text
  import opened Json

  datatype Usage = Usage(prompt: int, completion: int, cached: int)

  // ----- what one decoded value says --------------------------------------------------------------

  function UsageOf(o: Object): Option<Usage> {
    var usage := ObjOf(Field(o, "usage"));
    var prompt, completion := ToInt(Field(usage, "prompt_tokens")), ToInt(Field(usage, "completion_tokens"));
    if prompt == 0 && completion == 0 then None
    else Some(Usage(prompt, completion, ToInt(Field(ObjOf(Field(usage, "prompt_tokens_details")), "cached_tokens"))))
  }

  /** The text under `part` ("delta" or "message") of one choice. */
  function ChoiceText(choice: Value, part: string): string {
    var content := Field(ObjOf(Field(ObjOf(Some(choice)), part)), "content");
    if content.Some? && content.value.Str? then content.value.s else ""
  }

  function ChoicesText(choices: seq<Value>, part: string): string {
    if choices == [] then ""
    else ChoicesText(choices[..|choices| - 1], part) + ChoiceText(choices[|choices| - 1], part)
  }

  function ObjectText(o: Object, part: string): string {
    ChoicesText(ArrOf(Field(o, "choices")), part)
  }

  function ModelOf(o: Object): Option<string> {
    var m := Field(o, "model");
    if m.Some? && m.value.Str? && m.value.s != "" then Some(m.value.s) else None
  }

  // ----- what one line of the body says -----------------------------------------------------------

  /** The value text of a `data:` line, unless it is the `[DONE]` marker. */
  function Payload(line: string): Option<string> {
    var l := TrimSpace(line);
    if !HasPrefix(l, "data:") then None
    else
      var data := TrimSpace(l[5..]);
      if data == "[DONE]" then None else Some(data)
  }

  /** The JSON text `detectModelFromResponseBody` tries on a line: also a bare object on a line of its own. */
  function ModelText(line: string): Option<string> {
    var l := TrimSpace(line);
    if HasPrefix(l, "data:") then Payload(line) else if HasPrefix(l, "{") then Some(l) else None
  }

  function Decoded(c: Codec, text: Option<string>): Option<Object> {
    if text.Some? then DecodeObject(c, text.value) else None
  }

  function LineText(c: Codec, line: string): string {
    var o := Decoded(c, Payload(line));
    if o.Some? then ObjectText(o.value, "delta") else ""
  }

  function LineUsage(c: Codec, line: string): Option<Usage> {
    var o := Decoded(c, Payload(line));
    if o.Some? then UsageOf(o.value) else None
  }

  function LineModel(c: Codec, line: string): Option<string> {
    var o := Decoded(c, ModelText(line));
    if o.Some? then ModelOf(o.value) else None
  }

  function LinesText(c: Codec, lines: seq<string>): string {
    if lines == [] then "" else LinesText(c, lines[..|lines| - 1]) + LineText(c, lines[|lines| - 1])
  }

  function FirstUsage(c: Codec, lines: seq<string>): Option<Usage> {
    if lines == [] then None
    else if LineUsage(c, lines[0]).Some? then LineUsage(c, lines[0])
    else FirstUsage(c, lines[1..])
  }

  function FirstModel(c: Codec, lines: seq<string>): Option<string> {
    if lines == [] then None
    else if LineModel(c, lines[0]).Some? then LineModel(c, lines[0])
    else FirstModel(c, lines[1..])
  }

  predicate IsStreamed(body: string) {
    Contains(body, "\ndata:") || HasPrefix(body, "data:")
  }

  // ----- the three readers ------------------------------------------------------------------------

  function ContentIn(c: Codec, body: string): string {
    if IsStreamed(body) then LinesText(c, Split(body, NEWLINE))
    else
      var o := DecodeObject(c, TrimSpace(body));
      if o.Some? then ObjectText(o.value, "message") else ""
  }

  function UsageIn(c: Codec, body: string): Option<Usage> {
    if IsStreamed(body) then FirstUsage(c, Split(body, NEWLINE))
    else
      var o := DecodeObject(c, TrimSpace(body));
      if o.Some? then UsageOf(o.value) else None
  }

  function ModelIn(c: Codec, body: string): string {
    var m := FirstModel(c, Split(body, NEWLINE));
    if m.Some? then m.value else "unknown"
  }

  method ChoicesContent(o: Object, part: string) returns (content: string)
    ensures content == ObjectText(o, part)
  {
    content := "";
    var choices := ArrOf(Field(o, "choices"));
    for i := 0 to |choices|
      invariant content == ChoicesText(choices[..i], part)
    {
      content := content + ChoiceText(choices[i], part);
      assert choices[..i + 1][..i] == choices[..i];
    }
    assert choices[..|choices|] == choices;
  }

  method LineContent(c: Codec, rawLine: string) returns (content: string)
    ensures content == LineText(c, rawLine)
  {
    var line := TrimSpace(rawLine);
    if !HasPrefix(line, "data:") {
      return "";
    }
    var data := TrimSpace(line[5..]);
    if data == "[DONE]" {
      return "";
    }
    var obj := DecodeObject(c, data);
    if obj.None? {
      return "";
    }
    content := ChoicesContent(obj.value, "delta");
  }

  method ExtractResponseContent(c: Codec, body: string) returns (content: string)
    ensures content == ContentIn(c, body)
  {
    content := "";
    if IsStreamed(body) {
      var lines := Split(body, NEWLINE);
      for i := 0 to |lines|
        invariant content == LinesText(c, lines[..i])
      {
        assert lines[..i + 1][..i] == lines[..i];
        var text := LineContent(c, lines[i]);
        content := content + text;
      }
      assert lines[..|lines|] == lines;
      return;
    }
    var obj := DecodeObject(c, TrimSpace(body));
    if obj.Some? {
      content := ChoicesContent(obj.value, "message");
    }
  }

  method ExtractUsageFromResponse(c: Codec, body: string) returns (usage: Option<Usage>)
    ensures usage == UsageIn(c, body)
  {
    if !IsStreamed(body) {
      var obj := DecodeObject(c, TrimSpace(body));
      return if obj.Some? then UsageOf(obj.value) else None;
    }
    var lines := Split(body, NEWLINE);
    for i := 0 to |lines|
      invariant FirstUsage(c, lines) == FirstUsage(c, lines[i..])
    {
      assert lines[i..][1..] == lines[i + 1..];
      var line := TrimSpace(lines[i]);
      if !HasPrefix(line, "data:") {
        continue;
      }
      var data := TrimSpace(line[5..]);
      if data == "[DONE]" {
        continue;
      }
      var obj := DecodeObject(c, data);
      if obj.Some? && UsageOf(obj.value).Some? {
        return UsageOf(obj.value);
      }
    }
    usage := None;
  }

  method DetectModelFromResponseBody(c: Codec, body: string) returns (model: string)
    ensures model == ModelIn(c, body)
  {
    var lines := Split(body, NEWLINE);
    for i := 0 to |lines|
      invariant FirstModel(c, lines) == FirstModel(c, lines[i..])
    {
      assert lines[i..][1..] == lines[i + 1..];
      var line := TrimSpace(lines[i]);
      var raw: string;
      if HasPrefix(line, "data:") {
        raw := TrimSpace(line[5..]);
        if raw == "[DONE]" {
          continue;
        }
      } else if HasPrefix(line, "{") {
        raw := line;
      } else {
        continue;
      }
      var obj := DecodeObject(c, raw);
      if obj.Some? && ModelOf(obj.value).Some? {
        return ModelOf(obj.value).value;
      }
    }
    model := "unknown";
  }

  // ----- streamed bodies, as a backend writes them ------------------------------------------------

  /** A chunk, the end marker, or a line that is neither: blank, a comment, an event or id field. */
  datatype Content = Chunk(gap: string, value: Value) | Done(gap: string) | Other(text: string)

  datatype StreamLine = StreamLine(content: Content, crlf: bool)

  predicate WellFormedLine(l: StreamLine) {
    match l.content
    case Chunk(gap, _) => AllSpaces(gap) && NEWLINE !in gap
    case Done(gap) => AllSpaces(gap) && NEWLINE !in gap
    case Other(text) =>
      NEWLINE !in text && !HasPrefix(TrimSpace(text), "data:") && !HasPrefix(TrimSpace(text), "{")
  }

  function ContentLine(c: Codec, content: Content): string {
    match content
    case Chunk(gap, v) => "data:" + gap + c.encode(v)
    case Done(gap) => "data:" + gap + "[DONE]"
    case Other(text) => text
  }

  function Rendered(c: Codec, l: StreamLine): string {
    ContentLine(c, l.content) + if l.crlf then "\r" else ""
  }

  function RenderedLines(c: Codec, lines: seq<StreamLine>): seq<string> {
    seq(|lines|, i requires 0 <= i < |lines| => Rendered(c, lines[i]))
  }

  /** The whole body; a trailing line break is a last, blank, line. */
  function Body(c: Codec, lines: seq<StreamLine>): string {
    Join(RenderedLines(c, lines), NEWLINE)
  }

  /** Something is streamed, and every line is well formed. */
  predicate WellFormed(lines: seq<StreamLine>) {
    && AllWellFormed(lines)
    && (exists i :: 0 <= i < |lines| && !lines[i].content.Other?)
  }

  /** The objects among the chunks, in order. */
  function Objects(lines: seq<StreamLine>): seq<Object> {
    if lines == [] then []
    else
      var rest := Objects(lines[..|lines| - 1]);
      var last := lines[|lines| - 1].content;
      if last.Chunk? && last.value.Obj? then rest + [last.value.fields] else rest
  }

  function AllText(objects: seq<Object>): string {
    if objects == [] then "" else AllText(objects[..|objects| - 1]) + ObjectText(objects[|objects| - 1], "delta")
  }

  /** The first of the objects with non-zero usage decides. */
  function UsageAmong(objects: seq<Object>): Option<Usage> {
    if objects == [] then None
    else
      var before := UsageAmong(objects[..|objects| - 1]);
      if before.Some? then before else UsageOf(objects[|objects| - 1])
  }

  function ModelAmong(objects: seq<Object>): Option<string> {
    if objects == [] then None
    else
      var before := ModelAmong(objects[..|objects| - 1]);
      if before.Some? then before else ModelOf(objects[|objects| - 1])
  }

  // ----- one rendered line read back --------------------------------------------------------------

  lemma MarkedTrimmed(gap: string, data: string)
    requires Trimmed(data) && data != ""
    ensures Trimmed("data:" + gap + data)
  {
    var core := "data:" + gap + data;
    assert core == "data:" + (gap + data);
    assert core[0] == "data:"[0] && core[|core| - 1] == data[|data| - 1];
  }

  lemma TrimEnd(core: string, end: string)
    requires Trimmed(core) && AllSpaces(end)
    ensures TrimSpace(core + end) == core
  {
    assert "" + core + end == core + end;
    TrimSpaceDrops("", core, end);
  }

  lemma TrimGap(gap: string, data: string)
    requires AllSpaces(gap) && Trimmed(data)
    ensures TrimSpace(gap + data) == data
  {
    assert gap + data + "" == gap + data;
    TrimSpaceDrops(gap, data, "");
  }

  lemma MarkedLine(gap: string, data: string, crlf: bool)
    requires AllSpaces(gap) && Trimmed(data) && data != ""
    ensures TrimSpace("data:" + gap + data + if crlf then "\r" else "") == "data:" + gap + data
    ensures TrimSpace(("data:" + gap + data)[5..]) == data
  {
    MarkedTrimmed(gap, data);
    TrimEnd("data:" + gap + data, if crlf then "\r" else "");
    TrimGap(gap, data);
    assert ("data:" + gap + data)[5..] == gap + data;
  }

  lemma ReadBackLine(c: Codec, l: StreamLine)
    requires Lawful(c) && WellFormedLine(l)
    ensures Payload(Rendered(c, l)) == if l.content.Chunk? then Some(c.encode(l.content.value)) else None
    ensures ModelText(Rendered(c, l)) == Payload(Rendered(c, l))
    ensures NEWLINE !in Rendered(c, l)
  {
    match l.content
    case Chunk(gap, v) => MarkedLine(gap, c.encode(v), l.crlf);
    case Done(gap) => MarkedLine(gap, "[DONE]", l.crlf);
    case Other(text) =>
      if l.crlf {
        TrimIgnoresEnd(text, "\r");
      } else {
        assert Rendered(c, l) == text;
      }
  }

  /** Spaces added at the end do not change a trimmed text. */
  lemma {:induction false} TrimIgnoresEnd(s: string, sp: string)
    requires AllSpaces(sp)
    ensures TrimSpace(s + sp) == TrimSpace(s)
  {
    if s == "" {
      assert s + sp == sp + "";
      TrimLeftDrops(sp, "");
    } else if IsSpace(s[0]) {
      assert (s + sp)[1..] == s[1..] + sp;
      TrimIgnoresEnd(s[1..], sp);
    } else {
      TrimRightIgnores(s, sp);
    }
  }

  lemma {:induction false} TrimRightIgnores(s: string, sp: string)
    requires AllSpaces(sp)
    ensures TrimRight(s + sp) == TrimRight(s)
  {
    if sp != "" {
      assert (s + sp)[..|s + sp| - 1] == s + sp[..|sp| - 1];
      TrimRightIgnores(s, sp[..|sp| - 1]);
    } else {
      assert s + sp == s;
    }
  }

  // ----- the whole body read back -----------------------------------------------------------------

  lemma {:induction false} SplitUndoesJoin(parts: seq<string>, sep: char)
    requires |parts| >= 1 && forall i :: 0 <= i < |parts| ==> sep !in parts[i]
    ensures Split(Join(parts, sep), sep) == parts
  {
    if |parts| == 1 {
      SplitWithout(parts[0], sep);
    } else {
      SplitUndoesJoin(parts[1..], sep);
      SplitAtFirst(parts[0], sep, Join(parts[1..], sep));
      assert [parts[0]] + parts[1..] == parts;
    }
  }

  lemma {:induction false} JoinContainsLine(parts: seq<string>, sep: char, i: nat, mark: string)
    requires i < |parts| && HasPrefix(parts[i], mark)
    ensures HasPrefix(Join(parts, sep), mark) || Contains(Join(parts, sep), [sep] + mark)
  {
    if |parts| > 1 {
      var rest := Join(parts[1..], sep);
      assert Join(parts, sep) == parts[0] + [sep] + rest;
      if i > 0 {
        JoinContainsLine(parts[1..], sep, i - 1, mark);
        if HasPrefix(rest, mark) {
          assert parts[0] + [sep] + rest == parts[0] + ([sep] + mark) + rest[|mark|..];
          ContainsWithin(parts[0], [sep] + mark, rest[|mark|..]);
        } else {
          ContainsLater(parts[0] + [sep], rest, [sep] + mark);
        }
      }
    }
  }

  lemma {:induction false} ContainsLater(before: string, s: string, sub: string)
    requires Contains(s, sub)
    ensures Contains(before + s, sub)
  {
    if before != "" {
      ContainsLater(before[1..], s, sub);
      assert (before + s)[1..] == before[1..] + s;
    } else {
      assert before + s == s;
    }
  }

  lemma BodyIsStreamed(c: Codec, lines: seq<StreamLine>)
    requires WellFormed(lines)
    ensures IsStreamed(Body(c, lines))
  {
    var i :| 0 <= i < |lines| && !lines[i].content.Other?;
    var parts := RenderedLines(c, lines);
    assert HasPrefix(parts[i], "data:");
    JoinContainsLine(parts, NEWLINE, i, "data:");
    assert [NEWLINE] + "data:" == "\ndata:";
  }

  lemma BodyLines(c: Codec, lines: seq<StreamLine>)
    requires Lawful(c) && AllWellFormed(lines) && lines != []
    ensures Split(Body(c, lines), NEWLINE) == RenderedLines(c, lines)
  {
    forall i | 0 <= i < |lines| ensures NEWLINE !in RenderedLines(c, lines)[i] {
      ReadBackLine(c, lines[i]);
    }
    SplitUndoesJoin(RenderedLines(c, lines), NEWLINE);
  }

  /** The object a line carries; a line that carries none says as much as an empty one. */
  function ObjectOn(l: StreamLine): Object {
    if l.content.Chunk? && l.content.value.Obj? then l.content.value.fields else map[]
  }

  lemma LineDecodes(c: Codec, l: StreamLine)
    requires Lawful(c) && WellFormedLine(l)
    ensures var o := Decoded(c, Payload(Rendered(c, l))); ObjectOn(l) == if o.Some? then o.value else map[]
    ensures ModelText(Rendered(c, l)) == Payload(Rendered(c, l))
  {
    ReadBackLine(c, l);
    if l.content.Chunk? {
      assert c.decode(c.encode(l.content.value)) == Some(l.content.value);
    }
  }

  lemma EmptySaysNothing()
    ensures ObjectText(map[], "delta") == "" && UsageOf(map[]) == None && ModelOf(map[]) == None
  {
  }

  lemma LineSays(c: Codec, l: StreamLine)
    requires Lawful(c) && WellFormedLine(l)
    ensures LineText(c, Rendered(c, l)) == ObjectText(ObjectOn(l), "delta")
    ensures LineUsage(c, Rendered(c, l)) == UsageOf(ObjectOn(l))
    ensures LineModel(c, Rendered(c, l)) == ModelOf(ObjectOn(l))
  {
    LineDecodes(c, l);
    EmptySaysNothing();
  }

  lemma {:induction false} FirstUsageAppend(c: Codec, lines: seq<string>, line: string)
    ensures FirstUsage(c, lines + [line]) ==
      if FirstUsage(c, lines).Some? then FirstUsage(c, lines) else LineUsage(c, line)
  {
    if lines != [] {
      FirstUsageAppend(c, lines[1..], line);
      assert (lines + [line])[1..] == lines[1..] + [line];
    }
  }

  lemma {:induction false} FirstModelAppend(c: Codec, lines: seq<string>, line: string)
    ensures FirstModel(c, lines + [line]) ==
      if FirstModel(c, lines).Some? then FirstModel(c, lines) else LineModel(c, line)
  {
    if lines != [] {
      FirstModelAppend(c, lines[1..], line);
      assert (lines + [line])[1..] == lines[1..] + [line];
    }
  }

  predicate AllWellFormed(lines: seq<StreamLine>) {
    forall i :: 0 <= i < |lines| ==> WellFormedLine(lines[i])
  }

  lemma RenderedLast(c: Codec, lines: seq<StreamLine>)
    requires lines != []
    ensures RenderedLines(c, lines) == RenderedLines(c, lines[..|lines| - 1]) + [Rendered(c, lines[|lines| - 1])]
    ensures RenderedLines(c, lines)[..|lines| - 1] == RenderedLines(c, lines[..|lines| - 1])
  {
  }

  lemma {:induction false} LinesSayText(c: Codec, lines: seq<StreamLine>)
    requires Lawful(c) && AllWellFormed(lines)
    ensures LinesText(c, RenderedLines(c, lines)) == AllText(Objects(lines))
  {
    if lines != [] {
      var most, last := lines[..|lines| - 1], lines[|lines| - 1];
      LinesSayText(c, most);
      LineSays(c, last);
      RenderedLast(c, lines);
      EmptySaysNothing();
      AllTextAppends(Objects(most), ObjectOn(last));
    }
  }

  lemma AllTextAppends(objects: seq<Object>, o: Object)
    ensures AllText(objects + [o]) == AllText(objects) + ObjectText(o, "delta")
  {
    assert (objects + [o])[..|objects|] == objects;
  }

  lemma {:induction false} LinesSayUsage(c: Codec, lines: seq<StreamLine>)
    requires Lawful(c) && AllWellFormed(lines)
    ensures FirstUsage(c, RenderedLines(c, lines)) == UsageAmong(Objects(lines))
  {
    if lines != [] {
      var most, last := lines[..|lines| - 1], lines[|lines| - 1];
      LinesSayUsage(c, most);
      LineSays(c, last);
      RenderedLast(c, lines);
      FirstUsageAppend(c, RenderedLines(c, most), Rendered(c, last));
      EmptySaysNothing();
      assert (Objects(most) + [ObjectOn(last)])[..|Objects(most)|] == Objects(most);
    }
  }

  lemma {:induction false} LinesSayModel(c: Codec, lines: seq<StreamLine>)
    requires Lawful(c) && AllWellFormed(lines)
    ensures FirstModel(c, RenderedLines(c, lines)) == ModelAmong(Objects(lines))
  {
    if lines != [] {
      var most, last := lines[..|lines| - 1], lines[|lines| - 1];
      LinesSayModel(c, most);
      LineSays(c, last);
      RenderedLast(c, lines);
      FirstModelAppend(c, RenderedLines(c, most), Rendered(c, last));
      EmptySaysNothing();
      assert (Objects(most) + [ObjectOn(last)])[..|Objects(most)|] == Objects(most);
    }
  }

  /**
     The readers undo the printer: whatever chunks are printed as data lines, with whatever else in
     between, the content read back is all delta texts in order, ...
   */
  lemma {:induction false} StreamContentReadBack(c: Codec, lines: seq<StreamLine>)
    requires Lawful(c) && WellFormed(lines)
    ensures ContentIn(c, Body(c, lines)) == AllText(Objects(lines))
  {
    BodyIsStreamed(c, lines);
    BodyLines(c, lines);
    LinesSayText(c, lines);
  }

  /** ... the usage is the first chunk's that has any, ... */
  lemma {:induction false} StreamUsageReadBack(c: Codec, lines: seq<StreamLine>)
    requires Lawful(c) && WellFormed(lines)
    ensures UsageIn(c, Body(c, lines)) == UsageAmong(Objects(lines))
  {
    BodyIsStreamed(c, lines);
    BodyLines(c, lines);
    LinesSayUsage(c, lines);
  }

  /** ... and the model is the first chunk's that names one. */
  lemma {:induction false} StreamModelReadBack(c: Codec, lines: seq<StreamLine>)
    requires Lawful(c) && WellFormed(lines)
    ensures ModelIn(c, Body(c, lines)) ==
      if ModelAmong(Objects(lines)).Some? then ModelAmong(Objects(lines)).value else "unknown"
  {
    BodyLines(c, lines);
    LinesSayModel(c, lines);
  }

  /** "First" means first: the usage found is some chunk's, and no earlier chunk has any. */
  lemma {:induction false} UsageAmongIsFirst(objects: seq<Object>)
    ensures UsageAmong(objects).None? <==> forall i :: 0 <= i < |objects| ==> UsageOf(objects[i]).None?
    ensures UsageAmong(objects).Some? ==> exists i ::
      0 <= i < |objects| && UsageAmong(objects) == UsageOf(objects[i])
      && forall j :: 0 <= j < i ==> UsageOf(objects[j]).None?
  {
    if objects != [] {
      var most := objects[..|objects| - 1];
      UsageAmongIsFirst(most);
      if UsageAmong(most).Some? {
        var i :| 0 <= i < |most| && UsageAmong(most) == UsageOf(most[i])
          && forall j :: 0 <= j < i ==> UsageOf(most[j]).None?;
        assert objects[i] == most[i];
        assert forall j :: 0 <= j < i ==> objects[j] == most[j];
      } else {
        assert forall j :: 0 <= j < |most| ==> objects[j] == most[j];
      }
    }
  }

  /** The last of the objects with non-zero usage: what a backend that counts as it goes means in the end. */
  function LastUsageAmong(objects: seq<Object>): Option<Usage> {
    if objects == [] then None
    else if UsageOf(objects[|objects| - 1]).Some? then UsageOf(objects[|objects| - 1])
    else LastUsageAmong(objects[..|objects| - 1])
  }

  /** "Last" means last: the usage found is that of object `i`, and no later one has any; `i` is -1 if none has. */
  lemma {:induction false} LastUsageAmongIsLast(objects: seq<Object>) returns (i: int)
    ensures -1 <= i < |objects|
    ensures LastUsageAmong(objects) == if i == -1 then None else UsageOf(objects[i])
    ensures i >= 0 ==> UsageOf(objects[i]).Some?
    ensures forall j :: i < j < |objects| ==> UsageOf(objects[j]).None?
  {
    i := |objects| - 1;
    if objects != [] && UsageOf(objects[i]).None? {
      var most := objects[..i];
      i := LastUsageAmongIsLast(most);
      forall j | i < j < |objects| ensures UsageOf(objects[j]).None? {
        if j < |most| {
          assert objects[j] == most[j];
        }
      }
    }
  }

  /** The protocol of `include_usage`: figures come once, if at all. */
  ghost predicate FiguresComeOnce(objects: seq<Object>) {
    forall i, j :: 0 <= i < j < |objects| ==> UsageOf(objects[i]).None? || UsageOf(objects[j]).None?
  }

  lemma {:induction false} OnceIsFirstAndLast(objects: seq<Object>)
    requires FiguresComeOnce(objects)
    ensures UsageAmong(objects) == LastUsageAmong(objects)
  {
    UsageAmongIsFirst(objects);
    var j := LastUsageAmongIsLast(objects);
    if UsageAmong(objects).Some? {
      var i :| 0 <= i < |objects| && UsageAmong(objects) == UsageOf(objects[i]);
      assert i == j;
    }
  }

  lemma PlainIsNotStreamed(text: string, after: string)
    requires HasPrefix(text, "{") && NEWLINE !in text && AllSpaces(after)
    ensures !IsStreamed(text + after)
  {
    var body := text + after;
    assert body[0] == "{"[0];
    forall i | 0 <= i < |body| - 1 && body[i] == NEWLINE ensures body[i + 1] != 'd' {
      assert i >= |text|;
      assert body[i + 1] == after[i + 1 - |text|];
    }
    NoLineBreakBefore(body, "\ndata:");
  }

  lemma PlainTrims(text: string, after: string)
    requires Trimmed(text) && AllSpaces(after)
    ensures TrimSpace(text + after) == text
  {
    TrimSpaceDrops("", text, after);
    assert "" + text + after == text + after;
  }

  lemma PlainModel(c: Codec, text: string, after: string)
    requires HasPrefix(text, "{") && Trimmed(text) && NEWLINE !in text && AllSpaces(after)
    ensures LineModel(c, Split(text + after, NEWLINE)[0])
         == if DecodeObject(c, text).Some? then ModelOf(DecodeObject(c, text).value) else None
  {
    SplitFirst(text + after, NEWLINE);
    UpToBeyond(text, after, NEWLINE);
    UpToSpaces(after, NEWLINE);
    PlainTrims(text, UpTo(after, NEWLINE));
    assert text[0] == "{"[0];
  }

  /** A plain response, an object on one line with spaces or line breaks after it, reads back too. */
  lemma {:induction false} PlainReadBack(c: Codec, o: Object, after: string)
    requires Lawful(c) && AllSpaces(after)
    ensures ContentIn(c, c.encode(Obj(o)) + after) == ObjectText(o, "message")
    ensures UsageIn(c, c.encode(Obj(o)) + after) == UsageOf(o)
    ensures ModelOf(o).Some? ==> ModelIn(c, c.encode(Obj(o)) + after) == ModelOf(o).value
  {
    var text := c.encode(Obj(o));
    assert c.decode(text) == Some(Obj(o));
    PlainIsNotStreamed(text, after);
    PlainTrims(text, after);
    PlainModel(c, text, after);
  }

  /** No line break followed by the mark's second character, no mark. */
  lemma {:induction false} NoLineBreakBefore(s: string, mark: string)
    requires |mark| >= 2 && mark[0] == NEWLINE
    requires forall i :: 0 <= i < |s| - 1 && s[i] == NEWLINE ==> s[i + 1] != mark[1]
    ensures !Contains(s, mark)
  {
    assert |s| >= 2 && s[0] == mark[0] ==> s[1] != mark[1];
    if s != "" {
      var rest := s[1..];
      forall i | 0 <= i < |rest| - 1 && rest[i] == NEWLINE ensures rest[i + 1] != mark[1] {
        assert s[i + 1] == NEWLINE;
      }
      NoLineBreakBefore(rest, mark);
    }
  }
}
