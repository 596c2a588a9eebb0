/** The session index: one JSON record a line, to which missing threads are appended. */
module SessionIndex {
  import opened Text
  import opened RolloutPatch

  /** A thread that the state database knows. */
  datatype Thread = Thread(id: string, provider: Option<string>, title: Option<string>, updatedAt: string)

  /** What the JSON library ignores: a carriage return at the end of a text is white space. */
  ghost predicate IgnoresReturn(codec: Codec) {
    forall text :: codec.parse(text + "\r") == codec.parse(text)
  }

  /** A line as `str::lines` yields it: without its line end, be it LF or CRLF. */
  function LineOf(segment: string): string {
    var line := Line(segment);
    if Feed(segment) != "" && line != "" && line[|line| - 1] == '\r' then line[..|line| - 1] else line
  }

  function IdOn(codec: Codec, segment: string): Option<string> {
    var j := codec.parse(LineOf(segment));
    if j.Some? && j.value.Object? && "id" in j.value.fields
      && j.value.fields["id"].Str? then Some(j.value.fields["id"].text)
    else None
  }

  /** `read_session_index_ids`. */
  ghost predicate HasId(codec: Codec, content: string, id: string) {
    exists segment :: segment in Segments(content) && IdOn(codec, segment) == Some(id)
  }

  function Ids(codec: Codec, content: string): (r: set<string>)
    ensures forall id :: id in r <==> HasId(codec, content, id)
  {
    set segment | segment in Segments(content) && IdOn(codec, segment).Some? :: IdOn(codec, segment).value
  }

  function Entry(thread: Thread): Json {
    var title := thread.title.GetOr("");
    Object(map["id" := Str(thread.id), "thread_name" := Str(if Blank(title) then "Untitled" else title),
               "updated_at" := Str(thread.updatedAt)])
  }

  function EntryLine(codec: Codec): Thread -> string {
    thread => codec.render(Entry(thread)) + "\n"
  }

  function Lines(threads: seq<Thread>, line: Thread -> string): seq<string> {
    seq(|threads|, i requires 0 <= i < |threads| => line(threads[i]))
  }

  function Terminated(content: string): string {
    if content != "" && content[|content| - 1] != '\n' then content + "\n" else content
  }

  function Appended(content: string, lines: seq<string>): string {
    Terminated(content) + Concat(lines)
  }

  /** The loop of `append_session_index_entries`. */
  method AppendEntries(content: string, threads: seq<Thread>, line: Thread -> string) returns (longer: string,
                                                                                               added: nat)
    ensures longer == Appended(content, Lines(threads, line)) && added == |threads|
  {
    longer, added := Terminated(content), 0;
    ghost var lines := Lines(threads, line);
    for i := 0 to |threads|
      invariant longer == Terminated(content) + Concat(lines[..i]) && added == i
    {
      ConcatExtends(lines, i);
      longer := longer + line(threads[i]);
      added := added + 1;
    }
    assert lines[..|threads|] == lines;
  }

  lemma {:induction false} ConcatSplits(a: seq<string>, b: seq<string>)
    ensures Concat(a + b) == Concat(a) + Concat(b)
  {
    if b == [] {
      assert a + b == a;
    } else {
      assert (a + b)[..|a + b| - 1] == a + b[..|b| - 1];
      ConcatSplits(a, b[..|b| - 1]);
    }
  }

  function Completed(segments: seq<string>): seq<string>
    requires segments != []
  {
    segments[..|segments| - 1] + [segments[|segments| - 1] + "\n"]
  }

  lemma CompletedLast(first: string, rest: seq<string>)
    requires rest != []
    ensures Completed([first] + rest) == [first] + Completed(rest)
  {
    assert ([first] + rest)[..|rest|] == [first] + rest[..|rest| - 1];
  }

  lemma NotEmpty(content: string)
    requires content != ""
    ensures Segments(content) != []
  {
  }

  lemma OneSegment(line: string)
    requires line != "" && '\n' !in line
    ensures Segments(line) == [line] && Segments(line + "\n") == [line + "\n"]
  {
    NoNewline(line);
    NewlineAfter(line, "");
    assert line + "\n" + "" == line + "\n";
  }

  /** A line feed at the end completes the last segment. */
  lemma {:induction false} CompletedSegments(content: string)
    requires content != "" && content[|content| - 1] != '\n'
    ensures Segments(content) != [] && Segments(content + "\n") == Completed(Segments(content))
  {
    var k := Newline(content);
    NewlineIsFirst(content);
    NotEmpty(content);
    if k.None? {
      OneSegment(content);
    } else {
      var first, rest := content[..k.value + 1], content[k.value + 1..];
      FirstIsSegment(content, k.value);
      CompletedSegments(rest);
      CompletedBehind(content, first, rest);
    }
  }

  lemma CompletedBehind(content: string, first: string, rest: string)
    requires content == first + rest && rest != "" && IsSegment(first) && Feed(first) == "\n"
    requires Segments(rest) != [] && Segments(rest + "\n") == Completed(Segments(rest))
    ensures Segments(content + "\n") == Completed([first] + Segments(rest))
    ensures Segments(content) == [first] + Segments(rest)
  {
    FirstSegment(first, rest + "\n");
    FirstSegment(first, rest);
    assert content + "\n" == first + (rest + "\n");
    CompletedLast(first, Segments(rest));
  }

  lemma {:induction false} LastSegment(content: string)
    requires content != ""
    ensures Segments(content) != [] && IsSegment(Segments(content)[|Segments(content)| - 1])
    ensures Feed(Segments(content)[|Segments(content)| - 1]) == Feed(content)
  {
    NotEmpty(content);
    SegmentsSplit(content);
    var last := Segments(content)[|Segments(content)| - 1];
    assert content[|content| - 1] == last[|last| - 1];
  }

  /** The same number of segments, each now a whole line, and with the same id on it. */
  ghost predicate Whole(codec: Codec, before: seq<string>, after: seq<string>) {
    && |after| == |before|
    && forall i :: 0 <= i < |after| ==> Feed(after[i]) == "\n" && IdOn(codec, after[i]) == IdOn(codec, before[i])
  }

  lemma CompletedIsWhole(codec: Codec, segments: seq<string>)
    requires IgnoresReturn(codec) && Split(segments) && segments != [] && Feed(segments[|segments| - 1]) == ""
    ensures Whole(codec, segments, Completed(segments))
  {
    var n := |segments| - 1;
    var last := segments[n];
    LastLineKeepsId(codec, last);
    assert Feed(last + "\n") == "\n";
    forall i | 0 <= i < n ensures Completed(segments)[i] == segments[i] && Feed(segments[i]) == "\n" {
    }
  }

  /** Every segment of a terminated content is a whole line, and no record of the content is lost. */
  lemma TerminatedSegments(codec: Codec, content: string)
    requires IgnoresReturn(codec)
    ensures Whole(codec, Segments(content), Segments(Terminated(content)))
  {
    SegmentsSplit(content);
    if content != "" {
      LastSegment(content);
      if content[|content| - 1] != '\n' {
        CompletedSegments(content);
        CompletedIsWhole(codec, Segments(content));
      }
    }
  }

  lemma LastLineKeepsId(codec: Codec, line: string)
    requires IgnoresReturn(codec) && line != "" && '\n' !in line
    ensures IdOn(codec, line + "\n") == IdOn(codec, line)
  {
    assert Line(line + "\n") == line;
    if line[|line| - 1] == '\r' {
      assert line == line[..|line| - 1] + "\r";
    }
  }

  lemma RecordHasId(codec: Codec, record: Json, id: string)
    requires RoundTrips(codec) && record.Object? && "id" in record.fields && record.fields["id"] == Str(id)
    ensures var line := codec.render(record) + "\n";
            IsSegment(line) && Feed(line) == "\n" && IdOn(codec, line) == Some(id)
  {
    var json := codec.render(record);
    assert OneLine(json) && codec.parse(json) == Some(record);
    assert Line(json + "\n") == json;
    assert LineOf(json + "\n") == json;
  }

  lemma EntryHasId(codec: Codec, thread: Thread)
    requires RoundTrips(codec)
    ensures var line := EntryLine(codec)(thread);
            IsSegment(line) && Feed(line) == "\n" && IdOn(codec, line) == Some(thread.id)
  {
    RecordHasId(codec, Entry(thread), thread.id);
  }

  /** Whole lines that carry the given ids. */
  ghost predicate Carry(codec: Codec, lines: seq<string>, ids: seq<string>) {
    && |lines| == |ids|
    && forall i :: 0 <= i < |lines| ==>
      IsSegment(lines[i]) && Feed(lines[i]) == "\n" && IdOn(codec, lines[i]) == Some(ids[i])
  }

  lemma AppendedSegments(codec: Codec, content: string, lines: seq<string>, ids: seq<string>)
    requires IgnoresReturn(codec) && Carry(codec, lines, ids)
    ensures Segments(Appended(content, lines)) == Segments(Terminated(content)) + lines
  {
    var head := Segments(Terminated(content));
    TerminatedSegments(codec, content);
    SegmentsSplit(Terminated(content));
    ConcatSplits(head, lines);
    SegmentsOfConcat(head + lines);
  }

  /** The content as it was is the beginning of the longer one. */
  lemma AppendKeepsContent(content: string, lines: seq<string>)
    ensures content <= Appended(content, lines)
  {
  }

  /** The record of a thread: its id, its title or "Untitled", and its time, and nothing else. */
  ghost predicate Describes(j: Json, thread: Thread) {
    && j.Object? && j.fields.Keys == {"id", "thread_name", "updated_at"}
    && j.fields["id"] == Str(thread.id) && j.fields["updated_at"] == Str(thread.updatedAt)
    && (thread.title.Some? && Trim(thread.title.value) != "" ==> j.fields["thread_name"] == Str(thread.title.value))
    && (thread.title.None? || Trim(thread.title.value) == "" ==> j.fields["thread_name"] == Str("Untitled"))
  }

  lemma EntryIsDescription(thread: Thread)
    ensures Describes(Entry(thread), thread)
  {
    assert Trim("") == "";
    assert |"id"| == 2 && |"thread_name"| == 11 && |"updated_at"| == 10;
  }

  lemma RecordReads(codec: Codec, record: Json)
    requires RoundTrips(codec)
    ensures codec.parse(LineOf(codec.render(record) + "\n")) == Some(record)
  {
    var json := codec.render(record);
    assert OneLine(json) && codec.parse(json) == Some(record);
    assert Line(json + "\n") == json;
  }

  /** After the append there is, behind the old records, one for each thread, in their order. */
  lemma AppendedRecords(codec: Codec, content: string, threads: seq<Thread>)
    requires RoundTrips(codec) && IgnoresReturn(codec)
    ensures var after, n := Segments(Appended(content, Lines(threads, EntryLine(codec)))), |Segments(content)|;
            && |after| == n + |threads|
            && Whole(codec, Segments(content), after[..n])
            && forall i :: 0 <= i < |threads| ==>
              var j := codec.parse(LineOf(after[n + i])); j.Some? && Describes(j.value, threads[i])
  {
    var lines, n := Lines(threads, EntryLine(codec)), |Segments(content)|;
    var ids := seq(|threads|, i requires 0 <= i < |threads| => threads[i].id);
    forall i | 0 <= i < |threads| ensures IsSegment(lines[i]) && Feed(lines[i]) == "\n"
      && IdOn(codec, lines[i]) == Some(ids[i]) {
      EntryHasId(codec, threads[i]);
    }
    AppendedSegments(codec, content, lines, ids);
    TerminatedSegments(codec, content);
    var after := Segments(Appended(content, lines));
    assert after[..n] == Segments(Terminated(content));
    forall i | 0 <= i < |threads|
      ensures var j := codec.parse(LineOf(after[n + i])); j.Some? && Describes(j.value, threads[i])
    {
      assert after[n + i] == lines[i];
      RecordReads(codec, Entry(threads[i]));
      EntryIsDescription(threads[i]);
    }
  }

  /** After the append the index has exactly the ids that it had and those of the appended lines. */
  lemma AppendedIds(codec: Codec, content: string, lines: seq<string>, ids: seq<string>, id: string)
    requires IgnoresReturn(codec) && Carry(codec, lines, ids)
    ensures HasId(codec, Appended(content, lines), id) <==> HasId(codec, content, id) || id in ids
  {
    var before, head := Segments(content), Segments(Terminated(content));
    AppendedSegments(codec, content, lines, ids);
    TerminatedSegments(codec, content);
    IdsOfList(codec, before, head, id);
    if i :| 0 <= i < |ids| && ids[i] == id {
      assert lines[i] in lines;
    }
    if segment :| segment in lines && IdOn(codec, segment) == Some(id) {
      var i :| 0 <= i < |lines| && lines[i] == segment;
      assert ids[i] == id;
    }
  }

  lemma IdsOfList(codec: Codec, a: seq<string>, b: seq<string>, id: string)
    requires |a| == |b| && forall i :: 0 <= i < |a| ==> IdOn(codec, a[i]) == IdOn(codec, b[i])
    ensures (exists x :: x in a && IdOn(codec, x) == Some(id)) <==> (exists x :: x in b && IdOn(codec, x) == Some(id))
  {
    if x :| x in a && IdOn(codec, x) == Some(id) {
      var i :| 0 <= i < |a| && a[i] == x;
      assert b[i] in b;
    }
    if x :| x in b && IdOn(codec, x) == Some(id) {
      var i :| 0 <= i < |b| && b[i] == x;
      assert a[i] in a;
    }
  }
}
