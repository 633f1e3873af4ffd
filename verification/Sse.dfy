/**
  The event-stream parser of `sse_client.py`: an incremental line splitter and the machine that
  assembles events from lines.
*/
module Sse {
  import opened Common

  /** An event as it is dispatched, before its data is parsed as JSON. */
  datatype Event = Event(kind: string, data: string, id: Option<string>)

  // ---------------------------------------------------------------- lines

  predicate OneLine(s: string) {
    '\n' !in s
  }

  /** Where the first line ends. */
  function LineEnd(text: string): (i: nat)
    requires '\n' in text
    ensures i < |text| && text[i] == '\n' && '\n' !in text[..i]
  {
    if text[0] == '\n' then 0
    else
      assert text == [text[0]] + text[1..];
      var i := LineEnd(text[1..]) + 1;
      assert text[..i] == [text[0]] + text[1..][..i - 1];
      i
  }

  /** The lines of a text; one without a line feed at the end counts unless it is empty. */
  function Lines(text: string): seq<string>
    decreases |text|
  {
    if '\n' in text then
      var i := LineEnd(text);
      [text[..i]] + Lines(text[i + 1..])
    else if text == "" then []
    else [text]
  }

  function Unlines(lines: seq<string>): string {
    if lines == [] then "" else lines[0] + "\n" + Unlines(lines[1..])
  }

  function Concat(chunks: seq<string>): string {
    if chunks == [] then "" else Concat(chunks[..|chunks| - 1]) + chunks[|chunks| - 1]
  }

  lemma {:induction false} LineEndOf(line: string, rest: string)
    requires OneLine(line)
    ensures '\n' in line + "\n" + rest && LineEnd(line + "\n" + rest) == |line|
  {
    var text := line + "\n" + rest;
    assert text[|line|] == '\n';
    var i := LineEnd(text);
    assert forall j | 0 <= j < |line| :: line[j] in line && text[j] == line[j];
    assert forall j | 0 <= j < i :: text[..i][j] in text[..i] && text[j] != '\n';
  }

  lemma {:induction false} FirstLine(line: string, rest: string)
    requires OneLine(line)
    ensures Lines(line + "\n" + rest) == [line] + Lines(rest)
  {
    var text := line + "\n" + rest;
    LineEndOf(line, rest);
    assert text[..|line|] == line && text[|line| + 1..] == rest;
  }

  lemma {:induction false} LinesAreLines(text: string)
    ensures forall i | 0 <= i < |Lines(text)| :: OneLine(Lines(text)[i])
    decreases |text|
  {
    if '\n' in text {
      LinesAreLines(text[LineEnd(text) + 1..]);
    }
  }

  lemma {:induction false} Regroup(line: string, more: string, rest: string)
    ensures line + "\n" + more + rest == line + "\n" + (more + rest)
  {
  }

  lemma {:induction false} ConsAppend(xs: seq<string>, ys: seq<string>)
    requires xs != []
    ensures [xs[0]] + (xs[1..] + ys) == xs + ys
  {
  }

  /** Lines already complete stay as they are, whatever follows. */
  lemma {:induction false} CompleteLinesStand(done: seq<string>, rest: string)
    requires forall i | 0 <= i < |done| :: OneLine(done[i])
    ensures Lines(Unlines(done) + rest) == done + Lines(rest)
    decreases |done|
  {
    if done == [] {
      assert Unlines(done) + rest == rest;
    } else {
      var more := Unlines(done[1..]);
      CompleteLinesStand(done[1..], rest);
      FirstLine(done[0], more + rest);
      Regroup(done[0], more, rest);
      ConsAppend(done, Lines(rest));
    }
  }

  lemma {:induction false} LinesOfUnlines(lines: seq<string>)
    requires forall i | 0 <= i < |lines| :: OneLine(lines[i])
    ensures Lines(Unlines(lines)) == lines
  {
    CompleteLinesStand(lines, "");
    assert Unlines(lines) + "" == Unlines(lines);
  }

  function Ended(text: string): string {
    if text == "" || text[|text| - 1] == '\n' then text else text + "\n"
  }

  lemma {:induction false} EndedAfter(line: string, rest: string)
    ensures Ended(line + "\n" + rest) == line + "\n" + Ended(rest)
  {
    var text := line + "\n" + rest;
    if rest == "" {
      assert text == line + "\n" && text[|text| - 1] == '\n';
    } else {
      assert text[|text| - 1] == rest[|rest| - 1];
      Regroup(line, rest, "\n");
    }
  }

  /** No character is lost: put together, the lines are the text, with a line feed at its end if it had none. */
  lemma {:induction false} LinesKeepText(text: string)
    ensures Unlines(Lines(text)) == if text == "" || text[|text| - 1] == '\n' then text else text + "\n"
    decreases |text|
  {
    if '\n' in text {
      var i := LineEnd(text);
      var line, rest := text[..i], text[i + 1..];
      LinesKeepText(rest);
      assert text == line + "\n" + rest;
      EndedAfter(line, rest);
      UnlinesFirst(line, Lines(rest));
    } else if text != "" {
      assert text[|text| - 1] in text;
      UnlinesFirst(text, []);
      assert text + "\n" + "" == text + "\n";
    }
  }

  lemma {:induction false} UnlinesFirst(line: string, lines: seq<string>)
    ensures Unlines([line] + lines) == line + "\n" + Unlines(lines)
    ensures [line] + [] == [line]
  {
    assert ([line] + lines)[1..] == lines;
  }

  lemma {:induction false} UnlinesMore(done: seq<string>, line: string)
    ensures Unlines(done + [line]) == Unlines(done) + line + "\n"
    decreases |done|
  {
    if done == [] {
      assert [line][1..] == [];
    } else {
      assert (done + [line])[1..] == done[1..] + [line];
      UnlinesMore(done[1..], line);
    }
  }

  /** `buffer.split("\n", 1)`: cutting a line off the buffer changes nothing of what was received. */
  method CutLine(lines: seq<string>, buffer: string) returns (line: string, rest: string)
    requires '\n' in buffer
    ensures OneLine(line) && |rest| < |buffer| && buffer == line + "\n" + rest
    ensures Unlines(lines + [line]) + rest == Unlines(lines) + buffer
  {
    var i := LineEnd(buffer);
    line, rest := buffer[..i], buffer[i + 1..];
    UnlinesMore(lines, line);
    assert buffer == line + "\n" + rest;
    Reassociate(Unlines(lines), line, rest);
  }

  lemma {:induction false} Reassociate(a: string, line: string, rest: string)
    ensures (a + line + "\n") + rest == a + (line + "\n" + rest)
  {
  }

  lemma {:induction false} AppendChunk(a: string, buffer: string, chunk: string)
    ensures a + (buffer + chunk) == (a + buffer) + chunk
  {
  }

  predicate AreLines(lines: seq<string>) {
    forall i | 0 <= i < |lines| :: OneLine(lines[i])
  }

  /** The splitter: chunks are appended to a buffer, and complete lines are cut off its front. The
      lines do not depend on how the text was cut into chunks. */
  method ProcessStream(chunks: seq<string>) returns (lines: seq<string>)
    ensures lines == Lines(Concat(chunks))
  {
    var buffer := "";
    lines := [];
    for c := 0 to |chunks|
      invariant AreLines(lines) && OneLine(buffer)
      invariant Unlines(lines) + buffer == Concat(chunks[..c])
    {
      ghost var received := Concat(chunks[..c + 1]);
      assert chunks[..c + 1][..c] == chunks[..c];
      AppendChunk(Unlines(lines), buffer, chunks[c]);
      buffer := buffer + chunks[c];
      while '\n' in buffer
        invariant AreLines(lines) && Unlines(lines) + buffer == received
        decreases |buffer|
      {
        var line, rest := CutLine(lines, buffer);
        lines, buffer := lines + [line], rest;
      }
    }
    assert chunks[..|chunks|] == chunks;
    CompleteLinesStand(lines, buffer);
    if buffer != "" {
      lines := lines + [buffer];
    }
  }

  // ---------------------------------------------------------------- stripping

  /** The characters `str.strip` takes off. */
  predicate IsSpace(c: char) {
    || '\t' <= c <= '\r'
    || '\U{1c}' <= c <= ' '
    || c == '\U{85}' || c == '\U{a0}' || c == '\U{1680}'
    || '\U{2000}' <= c <= '\U{200a}'
    || c == '\U{2028}' || c == '\U{2029}' || c == '\U{202f}' || c == '\U{205f}' || c == '\U{3000}'
  }

  function Strip(s: string): string
    decreases |s|
  {
    if s == "" then ""
    else if IsSpace(s[0]) then Strip(s[1..])
    else if IsSpace(s[|s| - 1]) then Strip(s[..|s| - 1])
    else s
  }

  predicate Stable(s: string) {
    OneLine(s) && Strip(s) == s
  }

  lemma {:induction false} StripIsStable(s: string)
    requires OneLine(s)
    ensures Stable(Strip(s))
    decreases |s|
  {
    if s != "" {
      if IsSpace(s[0]) {
        StripIsStable(s[1..]);
      } else if IsSpace(s[|s| - 1]) {
        StripIsStable(s[..|s| - 1]);
      }
    }
  }

  lemma {:induction false} SliceOfRest(s: string, i: nat, j: nat)
    requires i <= j < |s|
    ensures s[1..][i..j] == s[i + 1..j + 1]
  {
  }

  lemma {:induction false} SliceOfFront(s: string, i: nat, j: nat)
    requires i <= j < |s|
    ensures s[..|s| - 1][i..j] == s[i..j]
  {
  }

  /** Stripping takes spaces off both ends and nothing else. */
  lemma {:induction false} StripsEnds(s: string) returns (i: nat, j: nat)
    ensures i <= j <= |s| && Strip(s) == s[i..j]
    ensures (forall k | 0 <= k < i :: IsSpace(s[k])) && (forall k | j <= k < |s| :: IsSpace(s[k]))
    ensures i < j ==> !IsSpace(s[i]) && !IsSpace(s[j - 1])
    decreases |s|
  {
    if s == "" {
      i, j := 0, 0;
    } else if IsSpace(s[0]) {
      var i', j' := StripsEnds(s[1..]);
      i, j := i' + 1, j' + 1;
      SliceOfRest(s, i', j');
      assert forall k | 0 < k < |s| :: s[k] == s[1..][k - 1];
    } else if IsSpace(s[|s| - 1]) {
      i, j := StripsEnds(s[..|s| - 1]);
      SliceOfFront(s, i, j);
      assert forall k | 0 <= k < |s| - 1 :: s[k] == s[..|s| - 1][k];
    } else {
      i, j := 0, |s|;
      assert s[0..|s|] == s;
    }
  }

  // ---------------------------------------------------------------- the machine

  datatype Machine = Machine(kind: string, data: string, id: Option<string>, events: seq<Event>)

  function Ready(events: seq<Event>): Machine {
    Machine("message", "", None, events)
  }

  function Feed(m: Machine, line: string): Machine {
    if line == "" then
      if m.data != "" then Ready(m.events + [Event(m.kind, m.data, m.id)]) else m
    else if "event:" <= line then m.(kind := Strip(line[6..]))
    else if "data:" <= line then m.(data := AddData(m.data, Strip(line[5..])))
    else if "id:" <= line then m.(id := Some(Strip(line[3..])))
    else m
  }

  function AddData(data: string, part: string): string {
    if data == "" then part else data + "\n" + part
  }

  function FeedAll(m: Machine, lines: seq<string>): Machine
    decreases |lines|
  {
    if lines == [] then m else FeedAll(Feed(m, lines[0]), lines[1..])
  }

  function Parse(text: string): seq<Event> {
    FeedAll(Ready([]), Lines(text)).events
  }

  lemma {:induction false} FeedBoth(m: Machine, a: seq<string>, b: seq<string>)
    ensures FeedAll(m, a + b) == FeedAll(FeedAll(m, a), b)
    decreases |a|
  {
    if a == [] {
      assert a + b == b;
    } else {
      assert (a + b)[1..] == a[1..] + b;
      FeedBoth(Feed(m, a[0]), a[1..], b);
    }
  }

  /** A comment, a `retry` or any other line that is not empty and names none of the three fields makes no
      difference, wherever it stands. */
  lemma {:induction false} OtherLinesAreIgnored(before: seq<string>, line: string, after: seq<string>)
    requires (forall i | 0 <= i < |before| :: OneLine(before[i])) && (forall i | 0 <= i < |after| :: OneLine(after[i]))
    requires OneLine(line) && line != ""
    requires !("event:" <= line) && !("data:" <= line) && !("id:" <= line)
    ensures Parse(Unlines(before + [line] + after)) == Parse(Unlines(before + after))
  {
    var m := Ready([]);
    LinesOfUnlines(before + [line] + after);
    LinesOfUnlines(before + after);
    FeedBoth(m, before + [line], after);
    FeedBoth(m, before, [line]);
    FeedBoth(m, before, after);
    assert [line][1..] == [];
    assert FeedAll(FeedAll(m, before), [line]) == Feed(FeedAll(m, before), line);
  }

  // ---------------------------------------------------------------- data as lines

  /** Data cut at its line feeds: always at least one line. */
  function DataLines(data: string): (lines: seq<string>)
    ensures lines != [] && forall i | 0 <= i < |lines| :: OneLine(lines[i])
    decreases |data|
  {
    if '\n' in data then
      var i := LineEnd(data);
      [data[..i]] + DataLines(data[i + 1..])
    else [data]
  }

  function JoinAfter(data: string, lines: seq<string>): string
    decreases |lines|
  {
    if lines == [] then data else JoinAfter(data + "\n" + lines[0], lines[1..])
  }

  lemma {:induction false} JoinShifts(a: string, b: string, lines: seq<string>)
    ensures JoinAfter(a + b, lines) == a + JoinAfter(b, lines)
    decreases |lines|
  {
    if lines != [] {
      assert a + b + "\n" + lines[0] == a + (b + "\n" + lines[0]);
      JoinShifts(a, b + "\n" + lines[0], lines[1..]);
    }
  }

  lemma {:induction false} DataIsItsLines(data: string)
    ensures JoinAfter(DataLines(data)[0], DataLines(data)[1..]) == data
    decreases |data|
  {
    if '\n' in data {
      var i := LineEnd(data);
      var rest := data[i + 1..];
      DataIsItsLines(rest);
      var lines := DataLines(rest);
      assert DataLines(data)[1..] == lines;
      JoinShifts(data[..i] + "\n", lines[0], lines[1..]);
      assert data[..i] + "\n" + lines[0] == (data[..i] + "\n") + lines[0];
      assert data == data[..i] + "\n" + rest;
    }
  }

  lemma {:induction false} DataLinesMore(data: string, part: string)
    requires OneLine(part)
    ensures DataLines(data + "\n" + part) == DataLines(data) + [part]
    decreases |data|
  {
    if '\n' in data {
      var i := LineEnd(data);
      var line, rest := data[..i], data[i + 1..];
      assert data == line + "\n" + rest;
      FirstDataLine(line, rest);
      DataLinesMore(rest, part);
      Regroup(line, rest, "\n" + part);
      SplitEnd(data, part);
      SplitEnd(rest, part);
      FirstDataLine(line, rest + "\n" + part);
      ConsLast(line, DataLines(rest), part);
    } else {
      FirstDataLine(data, part);
    }
  }

  lemma {:induction false} FirstDataLine(line: string, rest: string)
    requires OneLine(line)
    ensures DataLines(line + "\n" + rest) == [line] + DataLines(rest)
  {
    var text := line + "\n" + rest;
    LineEndOf(line, rest);
    assert text[..|line|] == line && text[|line| + 1..] == rest;
  }

  lemma {:induction false} SplitEnd(a: string, b: string)
    ensures a + "\n" + b == a + ("\n" + b)
  {
  }

  lemma {:induction false} ConsLast(line: string, lines: seq<string>, last: string)
    ensures [line] + (lines + [last]) == ([line] + lines) + [last]
  {
  }

  // ---------------------------------------------------------------- printing

  function DataFields(lines: seq<string>): seq<string> {
    if lines == [] then [] else ["data: " + lines[0]] + DataFields(lines[1..])
  }

  function IdFields(id: Option<string>): seq<string> {
    if id.Some? then ["id: " + id.value] else []
  }

  /** One event as a block of fields, ended by an empty line. */
  function Block(e: Event): seq<string> {
    ["event: " + e.kind] + DataFields(DataLines(e.data)) + IdFields(e.id) + [""]
  }

  function Blocks(es: seq<Event>): seq<string> {
    if es == [] then [] else Blocks(es[..|es| - 1]) + Block(es[|es| - 1])
  }

  function Print(es: seq<Event>): string {
    Unlines(Blocks(es))
  }

  /** Events that can be told from their printed form. */
  predicate Representable(e: Event) {
    && Stable(e.kind)
    && (e.id.Some? ==> Stable(e.id.value))
    && GoodData(e.data)
  }

  predicate GoodData(data: string) {
    DataLines(data)[0] != "" && forall i | 0 <= i < |DataLines(data)| :: Stable(DataLines(data)[i])
  }

  // ---------------------------------------------------------------- print, then parse

  /** A field's value comes back from behind the space. */
  lemma {:induction false} FieldValue(name: string, value: string)
    requires Stable(value)
    ensures name <= name + " " + value && Strip((name + " " + value)[|name|..]) == value
  {
    var shown := (name + " " + value)[|name|..];
    assert shown == " " + value;
    assert shown[1..] == value;
  }

  lemma {:induction false} FeedKind(m: Machine, kind: string)
    requires Stable(kind)
    ensures Feed(m, "event: " + kind) == m.(kind := kind)
  {
    FieldValue("event:", kind);
    assert "event:" + " " + kind == "event: " + kind;
  }

  lemma {:induction false} FeedData(m: Machine, part: string)
    requires Stable(part)
    ensures Feed(m, "data: " + part) == m.(data := AddData(m.data, part))
  {
    FieldValue("data:", part);
    var line := "data: " + part;
    assert "data:" + " " + part == line;
    assert line[0] == 'd' && "event:"[0] == 'e';
  }

  lemma {:induction false} FeedId(m: Machine, id: string)
    requires Stable(id)
    ensures Feed(m, "id: " + id) == m.(id := Some(id))
  {
    FieldValue("id:", id);
    var line := "id: " + id;
    assert "id:" + " " + id == line;
    assert line[0] == 'i' && "event:"[0] == 'e' && "data:"[0] == 'd';
  }

  lemma {:induction false} FeedMoreData(m: Machine, lines: seq<string>)
    requires m.data != "" && forall i | 0 <= i < |lines| :: Stable(lines[i])
    ensures FeedAll(m, DataFields(lines)) == m.(data := JoinAfter(m.data, lines))
    decreases |lines|
  {
    if lines != [] {
      FeedData(m, lines[0]);
      FeedMoreData(m.(data := AddData(m.data, lines[0])), lines[1..]);
      assert DataFields(lines)[1..] == DataFields(lines[1..]);
    }
  }

  lemma {:induction false} FeedAllData(m: Machine, data: string)
    requires m.data == "" && GoodData(data)
    ensures FeedAll(m, DataFields(DataLines(data))) == m.(data := data)
  {
    var lines := DataLines(data);
    FeedData(m, lines[0]);
    FeedMoreData(m.(data := lines[0]), lines[1..]);
    DataIsItsLines(data);
    assert DataFields(lines)[1..] == DataFields(lines[1..]);
  }

  lemma {:induction false} FeedOne(m: Machine, line: string)
    ensures FeedAll(m, [line]) == Feed(m, line)
  {
    assert [line][1..] == [];
  }

  lemma {:induction false} FeedBlock(events: seq<Event>, e: Event)
    requires Representable(e)
    ensures FeedAll(Ready(events), Block(e)) == Ready(events + [e])
  {
    var m := Ready(events);
    FeedOne(m, "event: " + e.kind);
    FeedKind(m, e.kind);
    var m1 := m.(kind := e.kind);
    FeedBoth(m, ["event: " + e.kind], DataFields(DataLines(e.data)));
    FeedAllData(m1, e.data);
    var m2 := m1.(data := e.data);
    FeedBoth(m, ["event: " + e.kind] + DataFields(DataLines(e.data)), IdFields(e.id));
    if e.id.Some? {
      FeedOne(m2, "id: " + e.id.value);
      FeedId(m2, e.id.value);
    }
    var m3 := m2.(id := e.id);
    FeedBoth(m, ["event: " + e.kind] + DataFields(DataLines(e.data)) + IdFields(e.id), [""]);
    FeedOne(m3, "");
    assert e.data != "" by {
      assert '\n' !in "";
    }
  }

  lemma {:induction false} FeedBlocks(es: seq<Event>)
    requires forall i | 0 <= i < |es| :: Representable(es[i])
    ensures FeedAll(Ready([]), Blocks(es)) == Ready(es)
  {
    if es != [] {
      var before, last := es[..|es| - 1], es[|es| - 1];
      FeedBlocks(before);
      FeedBoth(Ready([]), Blocks(before), Block(last));
      FeedBlock(before, last);
      assert before + [last] == es;
    }
  }

  lemma {:induction false} DataFieldsAreLines(lines: seq<string>)
    requires forall i | 0 <= i < |lines| :: OneLine(lines[i])
    ensures forall i | 0 <= i < |DataFields(lines)| :: OneLine(DataFields(lines)[i])
    decreases |lines|
  {
    if lines != [] {
      DataFieldsAreLines(lines[1..]);
    }
  }

  lemma {:induction false} BlocksAreLines(es: seq<Event>)
    requires forall i | 0 <= i < |es| :: Representable(es[i])
    ensures forall i | 0 <= i < |Blocks(es)| :: OneLine(Blocks(es)[i])
  {
    if es != [] {
      BlocksAreLines(es[..|es| - 1]);
      DataFieldsAreLines(DataLines(es[|es| - 1].data));
    }
  }

  // ---------------------------------------------------------------- what comes out

  /** What the machine holds is always the beginning of a representable event. */
  predicate Clean(m: Machine) {
    && Stable(m.kind)
    && (m.id.Some? ==> Stable(m.id.value))
    && (m.data != "" ==> GoodData(m.data))
    && forall i | 0 <= i < |m.events| :: Representable(m.events[i])
  }

  lemma {:induction false} AddDataIsGood(data: string, part: string)
    requires Stable(part) && (data != "" ==> GoodData(data))
    ensures AddData(data, part) != "" ==> GoodData(AddData(data, part))
  {
    if data != "" {
      DataLinesMore(data, part);
    } else if part != "" {
      assert DataLines(part) == [part];
    }
  }

  lemma {:induction false} FeedKeepsClean(m: Machine, line: string)
    requires Clean(m) && OneLine(line)
    ensures Clean(Feed(m, line))
  {
    if "event:" <= line {
      StripIsStable(line[6..]);
    } else if "data:" <= line {
      StripIsStable(line[5..]);
      AddDataIsGood(m.data, Strip(line[5..]));
    } else if "id:" <= line {
      StripIsStable(line[3..]);
    }
    assert Stable("message");
  }

  lemma {:induction false} FeedAllKeepsClean(m: Machine, lines: seq<string>)
    requires Clean(m) && forall i | 0 <= i < |lines| :: OneLine(lines[i])
    ensures Clean(FeedAll(m, lines))
    decreases |lines|
  {
    if lines != [] {
      FeedKeepsClean(m, lines[0]);
      FeedAllKeepsClean(Feed(m, lines[0]), lines[1..]);
    }
  }

  /** Whatever the text, every event dispatched is representable. */
  lemma {:induction false} ParsedIsRepresentable(text: string)
    ensures forall i | 0 <= i < |Parse(text)| :: Representable(Parse(text)[i])
  {
    LinesAreLines(text);
    assert Stable("message");
    FeedAllKeepsClean(Ready([]), Lines(text));
  }

  /** Printing events and parsing the text gives the events back if and only if each of them is
      representable. */
  lemma {:induction false} PrintThenParseExactly(es: seq<Event>)
    ensures Parse(Print(es)) == es <==> forall i | 0 <= i < |es| :: Representable(es[i])
  {
    ParsedIsRepresentable(Print(es));
    if forall i | 0 <= i < |es| :: Representable(es[i]) {
      BlocksAreLines(es);
      LinesOfUnlines(Blocks(es));
      FeedBlocks(es);
    }
  }

  // ---------------------------------------------------------------- departures from the standard

  /** The lines with a carriage return at the end of some: those end in CR LF in the text. */
  function Framed(lines: seq<string>, crs: seq<bool>): seq<string>
    requires |crs| == |lines|
  {
    if lines == [] then []
    else [if crs[0] then lines[0] + "\r" else lines[0]] + Framed(lines[1..], crs[1..])
  }

  lemma {:induction false} FramedAreLines(lines: seq<string>, crs: seq<bool>)
    requires |crs| == |lines| && forall i | 0 <= i < |lines| :: OneLine(lines[i])
    ensures forall i | 0 <= i < |Framed(lines, crs)| :: OneLine(Framed(lines, crs)[i])
    decreases |lines|
  {
    if lines != [] {
      FramedAreLines(lines[1..], crs[1..]);
    }
  }

  /** Stripping takes the carriage return off as well. */
  lemma {:induction false} StripReturn(s: string)
    ensures Strip(s + "\r") == Strip(s)
    decreases |s|
  {
    if s == "" {
      assert ("" + "\r")[1..] == "";
    } else if IsSpace(s[0]) {
      assert (s + "\r")[1..] == s[1..] + "\r";
      StripReturn(s[1..]);
    } else {
      assert (s + "\r")[..|s|] == s;
    }
  }

  lemma {:induction false} ReturnAfter(line: string, k: nat)
    requires k <= |line|
    ensures (line + "\r")[k..] == line[k..] + "\r"
  {
  }

  /** A field says the same with a carriage return at its end. */
  lemma {:induction false} FeedReturn(m: Machine, line: string)
    requires line != ""
    ensures Feed(m, line + "\r") == Feed(m, line)
  {
    PrefixReturn("event:", line);
    PrefixReturn("data:", line);
    PrefixReturn("id:", line);
    if "event:" <= line {
      StripReturn(line[6..]);
      ReturnAfter(line, 6);
    } else if "data:" <= line {
      StripReturn(line[5..]);
      ReturnAfter(line, 5);
    } else if "id:" <= line {
      StripReturn(line[3..]);
      ReturnAfter(line, 3);
    }
  }

  lemma {:induction false} PrefixReturn(name: string, line: string)
    requires name != "" && name[|name| - 1] == ':'
    ensures name <= line + "\r" <==> name <= line
  {
    if name <= line + "\r" {
      assert |name| <= |line| by {
        assert (line + "\r")[|name| - 1] == ':';
      }
      assert name == (line + "\r")[..|name|] == line[..|name|];
    }
  }

  /** An empty line in CR LF is no empty line to the parser. */
  lemma {:induction false} FramedFeeds(m: Machine, lines: seq<string>, crs: seq<bool>)
    requires |crs| == |lines| && forall i | 0 <= i < |lines| :: lines[i] == "" ==> !crs[i]
    ensures FeedAll(m, Framed(lines, crs)) == FeedAll(m, lines)
    decreases |lines|
  {
    if lines != [] {
      if crs[0] {
        FeedReturn(m, lines[0]);
      }
      FramedFeeds(Feed(m, lines[0]), lines[1..], crs[1..]);
      assert Framed(lines, crs)[1..] == Framed(lines[1..], crs[1..]);
    }
  }

  function EmptyCount(lines: seq<string>): nat {
    if lines == [] then 0 else (if lines[0] == "" then 1 else 0) + EmptyCount(lines[1..])
  }

  /** Each empty line dispatches one event at most. */
  lemma {:induction false} EventsAreCounted(m: Machine, lines: seq<string>)
    ensures |FeedAll(m, lines).events| <= |m.events| + EmptyCount(lines)
    decreases |lines|
  {
    if lines != [] {
      EventsAreCounted(Feed(m, lines[0]), lines[1..]);
    }
  }

  lemma {:induction false} EmptyBoth(a: seq<string>, b: seq<string>)
    ensures EmptyCount(a + b) == EmptyCount(a) + EmptyCount(b)
    decreases |a|
  {
    if a == [] {
      assert a + b == b;
    } else {
      assert (a + b)[1..] == a[1..] + b;
      EmptyBoth(a[1..], b);
    }
  }

  lemma {:induction false} FieldsAreNotEmpty(lines: seq<string>)
    ensures EmptyCount(DataFields(lines)) == 0
    decreases |lines|
  {
    if lines != [] {
      FieldsAreNotEmpty(lines[1..]);
      assert DataFields(lines)[1..] == DataFields(lines[1..]);
    }
  }

  lemma {:induction false} OneEmptyEach(es: seq<Event>)
    ensures EmptyCount(Blocks(es)) == |es|
  {
    if es != [] {
      var e := es[|es| - 1];
      var data := DataFields(DataLines(e.data));
      OneEmptyEach(es[..|es| - 1]);
      FieldsAreNotEmpty(DataLines(e.data));
      EmptyBoth(["event: " + e.kind], data);
      EmptyBoth(["event: " + e.kind] + data, IdFields(e.id));
      EmptyBoth(["event: " + e.kind] + data + IdFields(e.id), [""]);
      EmptyBoth(Blocks(es[..|es| - 1]), Block(e));
    }
  }

  lemma {:induction false} ReturnsHideEmpties(lines: seq<string>, crs: seq<bool>)
    requires |crs| == |lines|
    ensures EmptyCount(Framed(lines, crs)) <= EmptyCount(lines)
    ensures (exists i :: 0 <= i < |lines| && lines[i] == "" && crs[i]) ==>
              EmptyCount(Framed(lines, crs)) < EmptyCount(lines)
    ensures (forall i | 0 <= i < |crs| :: crs[i]) ==> EmptyCount(Framed(lines, crs)) == 0
    decreases |lines|
  {
    if lines != [] {
      ReturnsHideEmpties(lines[1..], crs[1..]);
      assert Framed(lines, crs)[1..] == Framed(lines[1..], crs[1..]);
      if i :| 0 <= i < |lines| && lines[i] == "" && crs[i] {
        if i > 0 {
          assert lines[1..][i - 1] == "" && crs[1..][i - 1];
        }
      }
      assert forall i | 0 <= i < |crs[1..]| :: crs[1..][i] == crs[i + 1];
    }
  }

  /** Section 9.2.5 of the WHATWG HTML Living Standard ends lines with CR LF as well. Here the printed
      events come back, whichever of their lines end that way, if and only if no empty line does. */
  lemma {:induction false} CrLfExactly(es: seq<Event>, crs: seq<bool>)
    requires (forall i | 0 <= i < |es| :: Representable(es[i])) && |crs| == |Blocks(es)|
    ensures Parse(Unlines(Framed(Blocks(es), crs))) == es <==>
      forall i | 0 <= i < |crs| :: Blocks(es)[i] == "" ==> !crs[i]
  {
    var lines := Blocks(es);
    BlocksAreLines(es);
    FramedAreLines(lines, crs);
    LinesOfUnlines(Framed(lines, crs));
    if forall i | 0 <= i < |crs| :: lines[i] == "" ==> !crs[i] {
      FramedFeeds(Ready([]), lines, crs);
      FeedBlocks(es);
    } else {
      ReturnsHideEmpties(lines, crs);
      OneEmptyEach(es);
      EventsAreCounted(Ready([]), Framed(lines, crs));
    }
  }

  /** Framed with CR LF throughout, a stream never yields an event. */
  lemma {:induction false} CrLfYieldsNothing(es: seq<Event>, crs: seq<bool>)
    requires forall i | 0 <= i < |es| :: Representable(es[i])
    requires |crs| == |Blocks(es)| && forall i | 0 <= i < |crs| :: crs[i]
    ensures Parse(Unlines(Framed(Blocks(es), crs))) == []
  {
    BlocksAreLines(es);
    FramedAreLines(Blocks(es), crs);
    LinesOfUnlines(Framed(Blocks(es), crs));
    ReturnsHideEmpties(Blocks(es), crs);
    EventsAreCounted(Ready([]), Framed(Blocks(es), crs));
  }

  /** The type a block of fields asks for. */
  function LastKind(block: seq<string>): string {
    if block == [] then "message" else
      var last := block[|block| - 1];
      if "event:" <= last then Strip(last[6..]) else LastKind(block[..|block| - 1])
  }

  predicate HasData(block: seq<string>) {
    exists i | 0 <= i < |block| :: "data:" <= block[i] && Strip(block[i][5..]) != ""
  }

  predicate HasId(block: seq<string>) {
    exists i | 0 <= i < |block| :: "id:" <= block[i]
  }

  /** Whatever follows the block and its empty line is parsed as if it came first. */
  ghost predicate StandsAlone(block: seq<string>) {
    forall rest :: FeedAll(Ready([]), block + [""] + rest).events ==
                   FeedAll(Ready([]), block + [""]).events + FeedAll(Ready([]), rest).events
  }

  /** Section 9.2.6 of the WHATWG HTML Living Standard forgets a block without data at its empty line.
      Here a block leaves nothing behind if and only if it has data, or neither changes the type nor
      gives an id. */
  lemma {:induction false} BlockStandsAloneExactly(block: seq<string>)
    requires forall i | 0 <= i < |block| :: block[i] != ""
    ensures StandsAlone(block) <==> HasData(block) || (LastKind(block) == "message" && !HasId(block))
  {
    BlockFields(block);
    FeedBoth(Ready([]), block, [""]);
    FeedOne(FeedAll(Ready([]), block), "");
    var after := FeedAll(Ready([]), block + [""]);
    if HasData(block) || (LastKind(block) == "message" && !HasId(block)) {
      FreshStandsAlone(block, after.events);
    } else {
      LeftOverShows(block, after);
    }
  }

  lemma {:induction false} FreshStandsAlone(block: seq<string>, events: seq<Event>)
    requires FeedAll(Ready([]), block + [""]) == Ready(events)
    ensures StandsAlone(block)
  {
    forall rest
      ensures FeedAll(Ready([]), block + [""] + rest).events == events + FeedAll(Ready([]), rest).events
    {
      FeedBoth(Ready([]), block + [""], rest);
      EventsShift(Ready([]), events, rest);
      assert events + [] == events;
    }
  }

  lemma {:induction false} LeftOverShows(block: seq<string>, after: Machine)
    requires FeedAll(Ready([]), block + [""]) == after
    requires after.data == "" && after.events == [] && (after.kind != "message" || after.id != None)
    ensures !StandsAlone(block)
  {
    var rest := ["data:x", ""];
    FeedBoth(Ready([]), block + [""], rest);
    LeftOver(after);
    LeftOver(Ready([]));
    assert FeedAll(Ready([]), block + [""] + rest).events !=
      FeedAll(Ready([]), block + [""]).events + FeedAll(Ready([]), rest).events;
  }

  /** What the fields of a block make of a fresh machine. */
  lemma {:induction false} BlockFields(block: seq<string>)
    requires forall i | 0 <= i < |block| :: block[i] != ""
    ensures var m := FeedAll(Ready([]), block);
      && m.events == [] && m.kind == LastKind(block)
      && (m.data != "" <==> HasData(block))
      && (m.id.Some? <==> HasId(block))
  {
    if block != [] {
      var before, line := block[..|block| - 1], block[|block| - 1];
      BlockFields(before);
      assert before + [line] == block;
      FeedBoth(Ready([]), before, [line]);
      FeedOne(FeedAll(Ready([]), before), line);
      assert HasData(block) <==> HasData(before) || ("data:" <= line && Strip(line[5..]) != "");
      assert HasId(block) <==> HasId(before) || "id:" <= line;
      assert "event:"[0] == 'e' && "data:"[0] == 'd' && "id:"[0] == 'i';
    }
  }

  /** Events dispatched before make no difference to those that follow. */
  lemma {:induction false} EventsShift(m: Machine, events: seq<Event>, lines: seq<string>)
    ensures FeedAll(m.(events := events + m.events), lines).events == events + FeedAll(m, lines).events
    decreases |lines|
  {
    if lines != [] {
      var next := Feed(m, lines[0]);
      assert Feed(m.(events := events + m.events), lines[0]) == next.(events := events + next.events);
      EventsShift(next, events, lines[1..]);
    }
  }

  lemma {:induction false} LeftOver(m: Machine)
    requires m.data == "" && m.events == []
    ensures FeedAll(m, ["data:x", ""]).events == [Event(m.kind, "x", m.id)]
  {
    var line := "data:x";
    FeedTwo(m, line, "");
    assert line[5..] == "x" && Strip("x") == "x";
    assert line[0] == 'd' && "event:"[0] == 'e';
    assert Feed(m, line) == m.(data := "x");
    assert [] + [Event(m.kind, "x", m.id)] == [Event(m.kind, "x", m.id)];
  }

  /** The type of such a block passes to the next event that names none. */
  lemma {:induction false} TypeLeaks(kind: string, data: string)
    requires Stable(kind) && Stable(data) && data != ""
    ensures Parse(Unlines(["event: " + kind, "", "data: " + data, ""])) == [Event(kind, data, None)]
  {
    var first, second := ["event: " + kind, ""], ["data: " + data, ""];
    assert ["event: " + kind, "", "data: " + data, ""] == first + second;
    LinesOfUnlines(first + second);
    var m := Ready([]);
    FeedKind(m, kind);
    FeedTwo(m, "event: " + kind, "");
    FeedData(m.(kind := kind), data);
    FeedTwo(m.(kind := kind), "data: " + data, "");
    FeedBoth(m, first, second);
    assert [] + [Event(kind, data, None)] == [Event(kind, data, None)];
  }

  /** And so does its id. */
  lemma {:induction false} IdLeaks(id: string, data: string)
    requires Stable(id) && Stable(data) && data != ""
    ensures Parse(Unlines(["id: " + id, "", "data: " + data, ""])) == [Event("message", data, Some(id))]
  {
    var first, second := ["id: " + id, ""], ["data: " + data, ""];
    assert ["id: " + id, "", "data: " + data, ""] == first + second;
    LinesOfUnlines(first + second);
    var m := Ready([]);
    FeedId(m, id);
    FeedTwo(m, "id: " + id, "");
    FeedData(m.(id := Some(id)), data);
    FeedTwo(m.(id := Some(id)), "data: " + data, "");
    FeedBoth(m, first, second);
    assert [] + [Event("message", data, Some(id))] == [Event("message", data, Some(id))];
  }

  lemma {:induction false} FeedTwo(m: Machine, a: string, b: string)
    ensures FeedAll(m, [a, b]) == Feed(Feed(m, a), b)
  {
    assert [a, b] == [a] + [b];
    FeedBoth(m, [a], [b]);
    FeedOne(m, a);
    FeedOne(Feed(m, a), b);
  }

  // ---------------------------------------------------------------- in place

  /** Those whose data parses as JSON. */
  function Accepted(es: seq<Event>, isJson: string -> bool): seq<Event> {
    if es == [] then [] else
      var last := es[|es| - 1];
      Accepted(es[..|es| - 1], isJson) + if isJson(last.data) then [last] else []
  }

  lemma {:induction false} AcceptedMore(es: seq<Event>, e: Event, isJson: string -> bool)
    ensures Accepted(es + [e], isJson) == Accepted(es, isJson) + if isJson(e.data) then [e] else []
  {
    assert (es + [e])[..|es|] == es;
  }

  /** The events kept are those with JSON data, in their order, and no others. */
  lemma {:induction false} AcceptedSplits(a: seq<Event>, b: seq<Event>, e: Event, isJson: string -> bool)
    ensures Accepted(a + b, isJson) == Accepted(a, isJson) + Accepted(b, isJson)
    ensures Accepted([e], isJson) == if isJson(e.data) then [e] else []
    decreases |b|
  {
    assert [e][..0] == [];
    if b == [] {
      assert a + b == a;
    } else {
      AcceptedSplits(a, b[..|b| - 1], e, isJson);
      assert (a + b)[..|a + b| - 1] == a + b[..|b| - 1];
    }
  }

  class SSEClient {
    var events: seq<Event>

    constructor ()
      ensures events == []
    {
      events := [];
    }

    /** One connection: what is stored depends on the text received and not on its chunks. */
    method ConnectAndProcess(chunks: seq<string>, isJson: string -> bool)
      modifies this
      ensures events == old(events) + Accepted(Parse(Concat(chunks)), isJson)
    {
      var lines := ProcessStream(chunks);
      var kind, data, id := "message", "", None;
      ghost var sent: seq<Event> := [];
      assert Accepted(sent, isJson) == [];
      for i := 0 to |lines|
        invariant FeedAll(Ready([]), lines) == FeedAll(Machine(kind, data, id, sent), lines[i..])
        invariant events == old(events) + Accepted(sent, isJson)
      {
        var line := lines[i];
        assert lines[i..][1..] == lines[i + 1..];
        if line == "" {
          if data != "" {
            AcceptedMore(sent, Event(kind, data, id), isJson);
            ghost var e := Event(kind, data, id);
            ProcessEvent(kind, data, id, isJson);
            sent := sent + [e];
            kind, data, id := "message", "", None;
          }
          continue;
        }
        if "event:" <= line {
          kind := Strip(line[6..]);
        } else if "data:" <= line {
          var part := Strip(line[5..]);
          data := if data == "" then part else data + "\n" + part;
        } else if "id:" <= line {
          id := Some(Strip(line[3..]));
        }
      }
      assert lines[|lines|..] == [];
    }

    method ProcessEvent(kind: string, data: string, id: Option<string>, isJson: string -> bool)
      modifies this
      ensures events == old(events) + if isJson(data) then [Event(kind, data, id)] else []
    {
      if isJson(data) {
        events := events + [Event(kind, data, id)];
      }
    }
  }
}
