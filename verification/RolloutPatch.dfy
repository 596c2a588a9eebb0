/** Re-labelling session files: every `session_meta` line gets the target provider, nothing else changes. */
module RolloutPatch {
  import opened Text

  datatype Json = Object(fields: map<string, Json>) | Str(text: string) | Other(literal: string)

  /** The JSON library: what it reads a text as, and the one-line text that it writes. */
  datatype Codec = Codec(parse: string -> Option<Json>, render: Json -> string)

  /** What is asked of the library: it reads back what it wrote, and writes one line that is not blank. */
  ghost predicate RoundTrips(codec: Codec) {
    forall j :: codec.parse(codec.render(j)) == Some(j) && OneLine(codec.render(j))
  }

  predicate OneLine(text: string) {
    text != "" && !Blank(text) && '\n' !in text && text[|text| - 1] != '\r'
  }

  // ----- one line -----

  /** `trim_end_matches('\r')`. */
  function Body(line: string): (r: string)
    ensures |r| <= |line|
  {
    if line != "" && line[|line| - 1] == '\r' then Body(line[..|line| - 1]) else line
  }

  lemma {:induction false} BodyTrims(line: string)
    ensures Body(line) <= line && (Body(line) != "" ==> Body(line)[|Body(line)| - 1] != '\r')
    ensures forall i :: 0 <= i < |Returns(line)| ==> Returns(line)[i] == '\r'
  {
    if line != "" && line[|line| - 1] == '\r' {
      var n := |line| - 1;
      BodyTrims(line[..n]);
      assert Returns(line) == Returns(line[..n]) + [line[n]];
    }
  }

  function Returns(line: string): string {
    line[|Body(line)|..]
  }

  /** A `session_meta` record whose payload is an object. */
  predicate IsMeta(j: Json) {
    && j.Object?
    && "type" in j.fields && j.fields["type"] == Str("session_meta")
    && "payload" in j.fields && j.fields["payload"].Object?
  }

  function Provider(j: Json): Option<string>
    requires IsMeta(j)
  {
    var payload := j.fields["payload"].fields;
    if "model_provider" in payload && payload["model_provider"].Str? then Some(payload["model_provider"].text) else None
  }

  function WithProvider(j: Json, target: string): (r: Json)
    requires IsMeta(j)
    ensures IsMeta(r) && Provider(r) == Some(target)
  {
    Object(j.fields["payload" := Object(j.fields["payload"].fields["model_provider" := Str(target)])])
  }

  /** The same record but for the provider of its payload, which is the target. */
  ghost predicate OnlyProvider(j: Json, r: Json, target: string) {
    && j.Object? && r.Object? && r.fields.Keys == j.fields.Keys && "payload" in j.fields
    && (forall key :: key in j.fields && key != "payload" ==> r.fields[key] == j.fields[key])
    && var before, after := j.fields["payload"], r.fields["payload"];
       && before.Object? && after.Object? && after.fields.Keys == before.fields.Keys + {"model_provider"}
       && (forall key :: key in before.fields && key != "model_provider" ==> after.fields[key] == before.fields[key])
       && after.fields["model_provider"] == Str(target)
  }

  lemma ProviderIsSet(j: Json, target: string)
    requires IsMeta(j)
    ensures OnlyProvider(j, WithProvider(j, target), target)
  {
  }

  /** The record on a line, if it is one that the repair looks at. */
  function Meta(codec: Codec, line: string): Option<Json> {
    var body := Body(line);
    if Blank(body) then None
    else
      var j := codec.parse(body);
      if j.Some? && IsMeta(j.value) then j else None
  }

  predicate NeedsPatch(codec: Codec, line: string, target: string) {
    var j := Meta(codec, line);
    j.Some? && IsMeta(j.value) && Provider(j.value) != Some(target)
  }

  /** A session record of another provider, or of none, or of one that is no text. */
  predicate IsOthers(j: Json, target: string) {
    && j.Object? && "type" in j.fields && j.fields["type"] == Str("session_meta")
    && "payload" in j.fields && j.fields["payload"].Object?
    && ("model_provider" in j.fields["payload"].fields ==> j.fields["payload"].fields["model_provider"] != Str(target))
  }

  /** Exactly the lines that are not blank and have such a record on them need the patch. */
  lemma LinesInNeed(codec: Codec, line: string, target: string)
    ensures NeedsPatch(codec, line, target) <==>
              && Trim(Body(line)) != "" && codec.parse(Body(line)).Some?
              && IsOthers(codec.parse(Body(line)).value, target)
  {
  }

  function PatchLine(codec: Codec, line: string, target: string): Option<string> {
    if NeedsPatch(codec, line, target)
    then Some(codec.render(WithProvider(Meta(codec, line).value, target)) + Returns(line))
    else None
  }

  /** A patched line carries the target provider and its old carriage returns, and needs no second patch. */
  lemma PatchedLine(codec: Codec, line: string, target: string)
    requires RoundTrips(codec) && NeedsPatch(codec, line, target) && '\n' !in line
    ensures var patched := PatchLine(codec, line, target).value;
            && Returns(patched) == Returns(line) && '\n' !in patched && patched != ""
            && Meta(codec, patched) == Some(WithProvider(Meta(codec, line).value, target))
            && !NeedsPatch(codec, patched, target)
  {
    BodyTrims(line);
    PrintedLine(codec, WithProvider(Meta(codec, line).value, target), Returns(line));
  }

  lemma PrintedLine(codec: Codec, j: Json, ends: string)
    requires RoundTrips(codec) && IsMeta(j)
    requires forall i :: 0 <= i < |ends| ==> ends[i] == '\r'
    ensures var line := codec.render(j) + ends;
            Returns(line) == ends && '\n' !in line && line != "" && Meta(codec, line) == Some(j)
  {
    var json := codec.render(j);
    assert OneLine(json) && codec.parse(json) == Some(j);
    BodyOf(json, ends);
  }

  lemma {:induction false} BodyOf(text: string, ends: string)
    requires text == "" || text[|text| - 1] != '\r'
    requires forall i :: 0 <= i < |ends| ==> ends[i] == '\r'
    ensures Body(text + ends) == text
  {
    if ends == "" {
      assert text + ends == text;
    } else {
      var n := |ends| - 1;
      assert (text + ends)[..|text + ends| - 1] == text + ends[..n];
      BodyOf(text, ends[..n]);
    }
  }

  // ----- segments -----

  function Newline(content: string): (k: Option<nat>)
    ensures k.Some? ==> k.value < |content|
  {
    if content == "" then None
    else if content[0] == '\n' then Some(0)
    else
      match Newline(content[1..])
      case Some(k) => Some(k + 1)
      case None => None
  }

  lemma {:induction false} NoNewline(line: string)
    requires '\n' !in line
    ensures Newline(line) == None
  {
    if line != "" {
      NoNewline(line[1..]);
    }
  }

  lemma {:induction false} NewlineAfter(line: string, rest: string)
    requires '\n' !in line
    ensures Newline(line + "\n" + rest) == Some(|line|)
  {
    if line != "" {
      assert (line + "\n" + rest)[1..] == line[1..] + "\n" + rest;
      NewlineAfter(line[1..], rest);
    }
  }

  lemma {:induction false} NewlineIsFirst(content: string)
    ensures Newline(content).None? ==> '\n' !in content
    ensures Newline(content).Some? ==>
        content[Newline(content).value] == '\n' && '\n' !in content[..Newline(content).value]
  {
    if content != "" && content[0] != '\n' {
      NewlineIsFirst(content[1..]);
      assert content == [content[0]] + content[1..];
      if Newline(content).Some? {
        var k := Newline(content).value;
        assert content[..k] == [content[0]] + content[1..][..k - 1];
      }
    }
  }

  /** `split_inclusive('\n')`. */
  function Segments(content: string): seq<string> {
    if content == "" then []
    else
      var k := Newline(content);
      if k.None? then [content] else [content[..k.value + 1]] + Segments(content[k.value + 1..])
  }

  function Concat(segments: seq<string>): string {
    if segments == [] then "" else Concat(segments[..|segments| - 1]) + segments[|segments| - 1]
  }

  /** The line of a segment, and its line feed if it has one. */
  function Line(segment: string): (r: string)
    ensures segment == r + Feed(segment)
  {
    if segment != "" && segment[|segment| - 1] == '\n' then segment[..|segment| - 1] else segment
  }

  function Feed(segment: string): string {
    if segment != "" && segment[|segment| - 1] == '\n' then "\n" else ""
  }

  predicate IsSegment(segment: string) {
    segment != "" && '\n' !in Line(segment)
  }

  /** What splitting yields: lines, all but the last with a line feed. */
  predicate Split(segments: seq<string>) {
    && (forall i :: 0 <= i < |segments| ==> IsSegment(segments[i]))
    && (forall i :: 0 <= i < |segments| - 1 ==> Feed(segments[i]) == "\n")
  }

  lemma {:induction false} ConcatFirst(segment: string, rest: seq<string>)
    ensures Concat([segment] + rest) == segment + Concat(rest)
  {
    var all := [segment] + rest;
    if rest == [] {
      assert all[..0] == [];
      assert Concat(all) == segment;
    } else {
      var n := |rest| - 1;
      assert all[..|all| - 1] == [segment] + rest[..n];
      ConcatFirst(segment, rest[..n]);
    }
  }

  lemma SplitFirst(first: string, rest: seq<string>)
    requires IsSegment(first) && Split(rest) && (rest == [] || Feed(first) == "\n")
    ensures Split([first] + rest)
  {
  }

  lemma {:induction false} SegmentsSplit(content: string)
    ensures Split(Segments(content)) && Concat(Segments(content)) == content
  {
    if content != "" {
      var k := Newline(content);
      NewlineIsFirst(content);
      if k.None? {
        ConcatFirst(content, []);
        SplitFirst(content, []);
      } else {
        var first, rest := content[..k.value + 1], content[k.value + 1..];
        SegmentsSplit(rest);
        ConcatFirst(first, Segments(rest));
        FirstIsSegment(content, k.value);
        SplitFirst(first, Segments(rest));
      }
    }
  }

  lemma FirstIsSegment(content: string, k: nat)
    requires k < |content| && content[k] == '\n' && '\n' !in content[..k]
    ensures IsSegment(content[..k + 1]) && Feed(content[..k + 1]) == "\n"
    ensures content == content[..k + 1] + content[k + 1..]
  {
    assert Line(content[..k + 1]) == content[..k];
  }

  /** A first line with its line feed is the first segment, whatever follows. */
  lemma FirstSegment(first: string, rest: string)
    requires IsSegment(first) && (rest == "" || Feed(first) == "\n")
    ensures Segments(first + rest) == [first] + Segments(rest)
  {
    if Feed(first) == "\n" {
      var n := |first| - 1;
      NewlineAfter(Line(first), rest);
      assert first + rest == Line(first) + "\n" + rest;
      assert (first + rest)[..n + 1] == first && (first + rest)[n + 1..] == rest;
    } else {
      NoNewline(first);
      assert first + rest == first;
    }
  }

  /** Splitting undoes joining. */
  lemma {:induction false} SegmentsOfConcat(segments: seq<string>)
    requires Split(segments)
    ensures Segments(Concat(segments)) == segments
  {
    if segments != [] {
      var first, rest := segments[0], segments[1..];
      assert segments == [first] + rest;
      ConcatFirst(first, rest);
      SegmentsOfConcat(rest);
      if rest == [] {
        assert Concat(rest) == "";
      }
      FirstSegment(first, Concat(rest));
    }
  }

  // ----- the whole file, for any way to patch a line -----

  function PatchSegment(patch: string -> Option<string>, segment: string): string {
    match patch(Line(segment))
    case Some(patched) => patched + Feed(segment)
    case None => segment
  }

  function PatchSegments(patch: string -> Option<string>, segments: seq<string>): seq<string> {
    seq(|segments|, i requires 0 <= i < |segments| => PatchSegment(patch, segments[i]))
  }

  predicate AnyPatch(patch: string -> Option<string>, segments: seq<string>) {
    exists i :: 0 <= i < |segments| && patch(Line(segments[i])).Some?
  }

  function Patched(patch: string -> Option<string>, content: string): string {
    Concat(PatchSegments(patch, Segments(content)))
  }

  /** The loop of `patch_rollout_provider`. */
  method PatchLines(content: string, patch: string -> Option<string>) returns (patched: Option<string>)
    ensures patched == if AnyPatch(patch, Segments(content)) then Some(Patched(patch, content)) else None
  {
    var segments := Segments(content);
    ghost var all := PatchSegments(patch, segments);
    var output, changed := "", false;
    for i := 0 to |segments|
      invariant output == Concat(all[..i])
      invariant changed <==> AnyPatch(patch, segments[..i])
    {
      var segment := segments[i];
      var line := patch(Line(segment));
      ConcatExtends(all, i);
      AnyPatchExtends(patch, segments, i);
      assert all[i] == PatchSegment(patch, segment);
      if line.Some? {
        output := output + (line.value + Feed(segment));
        changed := true;
      } else {
        output := output + segment;
      }
    }
    assert segments[..|segments|] == segments;
    assert all[..|segments|] == all;
    patched := if content != "" && changed then Some(output) else None;
  }

  lemma AnyPatchExtends(patch: string -> Option<string>, segments: seq<string>, i: nat)
    requires i < |segments|
    ensures AnyPatch(patch, segments[..i + 1]) <==> AnyPatch(patch, segments[..i]) || patch(Line(segments[i])).Some?
  {
    assert forall j :: 0 <= j < i ==> segments[..i + 1][j] == segments[..i][j];
    assert segments[..i + 1][i] == segments[i];
  }

  lemma ConcatExtends(segments: seq<string>, i: nat)
    requires i < |segments|
    ensures Concat(segments[..i + 1]) == Concat(segments[..i]) + segments[i]
  {
    assert segments[..i + 1][..i] == segments[..i];
  }

  /** What a patch of a line must not touch: it stays one line with the same carriage returns, and a patched
      line is not patched again. */
  ghost predicate Local(patch: string -> Option<string>) {
    forall line :: '\n' !in line && patch(line).Some? ==>
      var patched := patch(line).value;
      '\n' !in patched && patched != "" && Returns(patched) == Returns(line) && patch(patched) == None
  }

  lemma PatchedSegment(patch: string -> Option<string>, segment: string)
    requires Local(patch) && IsSegment(segment)
    ensures var patched := PatchSegment(patch, segment);
            && IsSegment(patched) && Feed(patched) == Feed(segment) && Returns(Line(patched)) == Returns(Line(segment))
            && patch(Line(patched)) == None && Line(patched) == patch(Line(segment)).GetOr(Line(segment))
  {
    if patch(Line(segment)).Some? {
      var line, patched := patch(Line(segment)).value, PatchSegment(patch, segment);
      assert Feed(segment) == "" ==> patched == line;
      assert Line(patched) == line;
    }
  }

  lemma PatchedSegments(patch: string -> Option<string>, content: string)
    requires Local(patch)
    ensures Segments(Patched(patch, content)) == PatchSegments(patch, Segments(content))
    ensures forall i :: 0 <= i < |Segments(content)| ==> IsSegment(Segments(content)[i])
  {
    var segments := Segments(content);
    var patched := PatchSegments(patch, segments);
    SegmentsSplit(content);
    forall i | 0 <= i < |segments| ensures IsSegment(patched[i]) && Feed(patched[i]) == Feed(segments[i]) {
      PatchedSegment(patch, segments[i]);
    }
    SegmentsOfConcat(patched);
  }

  // ----- the patch of session files -----

  function LinePatch(codec: Codec, target: string): string -> Option<string> {
    line => PatchLine(codec, line, target)
  }

  lemma LinePatchIsLocal(codec: Codec, target: string)
    requires RoundTrips(codec)
    ensures Local(LinePatch(codec, target))
  {
    forall line | '\n' !in line && PatchLine(codec, line, target).Some?
      ensures var patched := PatchLine(codec, line, target).value;
              '\n' !in patched && patched != "" && Returns(patched) == Returns(line)
                && PatchLine(codec, patched, target) == None
    {
      PatchedLine(codec, line, target);
    }
  }

  /** `patch_rollout_provider`: nothing to do exactly when no line needs the patch. */
  method PatchRollout(codec: Codec, content: string, target: string) returns (patched: Option<string>)
    ensures patched.Some? <==> AnyPatch(LinePatch(codec, target), Segments(content))
    ensures patched.Some? ==> patched.value == Patched(LinePatch(codec, target), content)
  {
    patched := PatchLines(content, LinePatch(codec, target));
  }

  /** The patched file has the same segments with the same ends, carriage returns and line feed; lines that
      needed no patch are unchanged, and the others are the same records with the target provider. */
  lemma PatchKeepsTheRest(codec: Codec, content: string, target: string, i: nat)
    requires RoundTrips(codec) && i < |Segments(content)|
    ensures var before, after := Segments(content), Segments(Patched(LinePatch(codec, target), content));
            && |after| == |before|
            && Feed(after[i]) == Feed(before[i]) && Returns(Line(after[i])) == Returns(Line(before[i]))
            && if NeedsPatch(codec, Line(before[i]), target)
               then Meta(codec, Line(after[i])).Some?
                 && OnlyProvider(Meta(codec, Line(before[i])).value, Meta(codec, Line(after[i])).value, target)
               else after[i] == before[i]
  {
    var patch, segment := LinePatch(codec, target), Segments(content)[i];
    LinePatchIsLocal(codec, target);
    PatchedSegments(patch, content);
    PatchedSegment(patch, segment);
    if NeedsPatch(codec, Line(segment), target) {
      PatchedLine(codec, Line(segment), target);
      ProviderIsSet(Meta(codec, Line(segment)).value, target);
    }
  }

  /** The result of a patch needs none, so a second patch yields nothing. */
  lemma PatchIsDone(codec: Codec, content: string, target: string)
    requires RoundTrips(codec)
    ensures !AnyPatch(LinePatch(codec, target), Segments(Patched(LinePatch(codec, target), content)))
  {
    var patch, segments := LinePatch(codec, target), Segments(content);
    LinePatchIsLocal(codec, target);
    PatchedSegments(patch, content);
    forall i | 0 <= i < |segments| ensures patch(Line(PatchSegments(patch, segments)[i])) == None {
      PatchedSegment(patch, segments[i]);
    }
  }

  /** A file that needs no patch would not change. */
  lemma PatchOfDone(codec: Codec, content: string, target: string)
    requires !AnyPatch(LinePatch(codec, target), Segments(content))
    ensures Patched(LinePatch(codec, target), content) == content
  {
    var patch, segments := LinePatch(codec, target), Segments(content);
    SegmentsSplit(content);
    forall i | 0 <= i < |segments| ensures PatchSegment(patch, segments[i]) == segments[i] {
      assert patch(Line(segments[i])).None?;
    }
    assert PatchSegments(patch, segments) == segments;
  }
}
