/**
 * Normalisation of a gate reply into the display object every response
 * carries: lettered options, the message, warnings, status and gate.
 * The option pattern's `findall` is a parameter: it yields, in order, the
 * letter and the text of each `A) text` / `A. text` / `A- text` entry.
 */
module DisplayBuilder {
  import opened Wrappers
  import opened Text
  import opened Json

  /** One entry found by the option pattern: its letter and its raw text. */
  type Match = (char, string)

  /** One structured option: `{"key", "label", "value"}` (the label is held in `caption`). */
  datatype Choice = Choice(key: char, caption: string, value: string)

  /** The letters run A, B, C, ... with no gap, repeat or other start. */
  predicate LettersFromA(matches: seq<Match>) {
    forall i :: 0 <= i < |matches| ==> matches[i].0 as int == 'A' as int + i
  }

  predicate IsComma(c: char) {
    c == ','
  }

  /** `text.strip().rstrip(",")` */
  function CleanCaption(text: string): (caption: string)
    ensures |caption| <= |Strip(text)| && caption == Strip(text)[..|caption|]
    ensures caption == [] || !IsSpace(caption[0])
    ensures caption == [] || caption[|caption| - 1] != ','
    ensures forall i :: |caption| <= i < |Strip(text)| ==> Strip(text)[i] == ','
  {
    StripProperties(text);
    TrimEnd(Strip(text), IsComma)
  }

  predicate IsSlugChar(c: char) {
    'a' <= c <= 'z' || '0' <= c <= '9'
  }

  /** No `_` is followed by another `_`. */
  predicate NoDoubleUnderscore(v: string) {
    forall i, j :: 0 <= i < |v| && 0 <= j < |v| && j == i + 1 ==> v[i] != '_' || v[j] != '_'
  }

  /** The shape of a machine key: `[a-z0-9_]` only, no `__`, no `_` at either end. */
  predicate IsSlug(v: string) {
    && (forall i :: 0 <= i < |v| ==> IsSlugChar(v[i]) || v[i] == '_')
    && NoDoubleUnderscore(v)
    && (v == [] || (v[0] != '_' && v[|v| - 1] != '_'))
  }

  /** The `[a-z0-9]` characters of `s`, in order. */
  function SlugChars(s: string): (r: string)
    ensures |r| <= |s|
    ensures forall i :: 0 <= i < |r| ==> IsSlugChar(r[i])
  {
    if s == [] then []
    else if IsSlugChar(s[0]) then [s[0]] + SlugChars(s[1..])
    else SlugChars(s[1..])
  }

  lemma {:induction false} SlugCharsAppend(a: string, b: string)
    ensures SlugChars(a + b) == SlugChars(a) + SlugChars(b)
  {
    if a == [] {
      assert a + b == b;
    } else {
      assert (a + b)[0] == a[0];
      assert (a + b)[1..] == a[1..] + b;
      SlugCharsAppend(a[1..], b);
    }
  }

  lemma {:induction false} NoSlugChars(u: string)
    requires forall i :: 0 <= i < |u| ==> !IsSlugChar(u[i])
    ensures SlugChars(u) == []
  {
    if u != [] {
      NoSlugChars(u[1..]);
    }
  }

  /**
   * `re.sub(r"[^a-z0-9]+", "_", s)`: each maximal run of other characters
   * becomes a single `_`; `inRun` says the character before `s` was in such a run.
   */
  function CollapseRuns(s: string, inRun: bool): (r: string)
    ensures forall i :: 0 <= i < |r| ==> IsSlugChar(r[i]) || r[i] == '_'
    ensures NoDoubleUnderscore(r)
    ensures inRun && r != [] ==> r[0] != '_'
  {
    if s == [] then []
    else if IsSlugChar(s[0]) then [s[0]] + CollapseRuns(s[1..], false)
    else if inRun then CollapseRuns(s[1..], true)
    else ['_'] + CollapseRuns(s[1..], true)
  }

  predicate IsUnderscore(c: char) {
    c == '_'
  }

  /** The `[a-z0-9]` characters are all kept, in order. */
  lemma {:induction false} CollapseRunsKeepsSlugChars(s: string, inRun: bool)
    ensures SlugChars(CollapseRuns(s, inRun)) == SlugChars(s)
  {
    if s != [] {
      CollapseRunsKeepsSlugChars(s[1..], !IsSlugChar(s[0]));
    }
  }

  /** Whether `s` ends inside a run of non-`[a-z0-9]` characters, given `inRun` before it. */
  function EndsInRun(s: string, inRun: bool): bool {
    if s == [] then inRun else !IsSlugChar(s[|s| - 1])
  }

  /** What the first character contributes: itself, a `_` opening a run, or nothing inside a run. */
  function Head(x: char, inRun: bool): string {
    if IsSlugChar(x) then [x] else if inRun then [] else "_"
  }

  lemma CollapseRunsCons(x: char, rest: string, inRun: bool)
    ensures CollapseRuns([x] + rest, inRun) == Head(x, inRun) + CollapseRuns(rest, !IsSlugChar(x))
  {
    assert ([x] + rest)[0] == x && ([x] + rest)[1..] == rest;
  }

  /** Substitution works piece by piece: a run split across `a` and `b` still gives one `_`. */
  lemma {:induction false} CollapseRunsAppend(a: string, b: string, inRun: bool)
    ensures CollapseRuns(a + b, inRun) == CollapseRuns(a, inRun) + CollapseRuns(b, EndsInRun(a, inRun))
  {
    if a == [] {
      assert a + b == b;
    } else {
      var x, rest := a[0], a[1..];
      var e := EndsInRun(a, inRun);
      var h, p, q := Head(x, inRun), CollapseRuns(rest, !IsSlugChar(x)), CollapseRuns(b, e);
      assert CollapseRuns(a + b, inRun) == h + (p + q) by {
        assert a + b == [x] + (rest + b);
        assert EndsInRun(rest, !IsSlugChar(x)) == e by {
          if rest != [] {
            assert rest[|rest| - 1] == a[|a| - 1];
          }
        }
        CollapseRunsCons(x, rest + b, inRun);
        CollapseRunsAppend(rest, b, !IsSlugChar(x));
      }
      assert CollapseRuns(a, inRun) == h + p by {
        assert a == [x] + rest;
        CollapseRunsCons(x, rest, inRun);
      }
      assert h + (p + q) == (h + p) + q;
    }
  }

  /** A non-empty run of non-`[a-z0-9]` characters becomes one `_`, or nothing when it continues a run. */
  lemma {:induction false} CollapseRunOfOthers(u: string, inRun: bool)
    requires u != [] && forall i :: 0 <= i < |u| ==> !IsSlugChar(u[i])
    ensures CollapseRuns(u, inRun) == if inRun then [] else "_"
  {
    if |u| > 1 {
      CollapseRunOfOthers(u[1..], true);
    }
  }

  /** `[a-z0-9]` characters are copied as they are. */
  lemma {:induction false} CollapseRunsOfWord(w: string, inRun: bool)
    requires forall i :: 0 <= i < |w| ==> IsSlugChar(w[i])
    ensures CollapseRuns(w, inRun) == w
  {
    if w != [] {
      CollapseRunsOfWord(w[1..], false);
      assert [w[0]] + w[1..] == w;
    }
  }

  /**
   * `re.sub(r"[^a-z0-9]+", "_", caption.lower()).strip("_")`: a slug-shaped
   * key holding exactly the `[a-z0-9]` characters of the lower-cased caption, in order.
   */
  function Slugify(caption: string): (v: string)
    ensures IsSlug(v)
    ensures SlugChars(v) == SlugChars(Lower(caption))
  {
    var c := CollapseRuns(Lower(caption), false);
    assert SlugBody(c);
    TrimmedSlugBody(c);
    CollapseRunsKeepsSlugChars(Lower(caption), false);
    TrimUnderscoresKeepsSlugChars(c);
    TrimEnd(TrimStart(c, IsUnderscore), IsUnderscore)
  }

  /** `strip("_")` removes no `[a-z0-9]` character. */
  lemma TrimUnderscoresKeepsSlugChars(c: string)
    ensures SlugChars(TrimEnd(TrimStart(c, IsUnderscore), IsUnderscore)) == SlugChars(c)
  {
    var t := TrimStart(c, IsUnderscore);
    TrimStartKeepsSlugChars(c);
    TrimEndKeepsSlugChars(t);
  }

  lemma TrimStartKeepsSlugChars(c: string)
    ensures SlugChars(TrimStart(c, IsUnderscore)) == SlugChars(c)
  {
    var t := TrimStart(c, IsUnderscore);
    var head := c[..|c| - |t|];
    assert forall i :: 0 <= i < |head| ==> head[i] == c[i] && IsUnderscore(c[i]);
    NoSlugChars(head);
    assert head + t == c;
    SlugCharsAppend(head, t);
  }

  lemma TrimEndKeepsSlugChars(t: string)
    ensures SlugChars(TrimEnd(t, IsUnderscore)) == SlugChars(t)
  {
    var v := TrimEnd(t, IsUnderscore);
    var foot := t[|v|..];
    assert forall i :: 0 <= i < |foot| ==> foot[i] == t[|v| + i] && IsUnderscore(t[|v| + i]);
    NoSlugChars(foot);
    assert v + foot == t;
    SlugCharsAppend(v, foot);
  }

  /** The character and no-`__` conditions of the slug shape. */
  predicate SlugBody(v: string) {
    && (forall i :: 0 <= i < |v| ==> IsSlugChar(v[i]) || v[i] == '_')
    && NoDoubleUnderscore(v)
  }

  lemma SlugBodySlice(v: string, a: nat, b: nat)
    requires a <= b <= |v|
    requires SlugBody(v)
    ensures SlugBody(v[a..b])
  {
    var w := v[a..b];
    assert forall i :: 0 <= i < |w| ==> w[i] == v[a + i];
  }

  lemma TrimStartKeepsSlugBody(c: string)
    requires SlugBody(c)
    ensures SlugBody(TrimStart(c, IsUnderscore))
  {
    var t := TrimStart(c, IsUnderscore);
    SlugBodySlice(c, |c| - |t|, |c|);
  }

  lemma TrimmedSlugBody(t: string)
    requires SlugBody(t)
    ensures IsSlug(TrimEnd(TrimStart(t, IsUnderscore), IsUnderscore))
  {
    var u := TrimStart(t, IsUnderscore);
    TrimStartKeepsSlugBody(t);
    var v := TrimEnd(u, IsUnderscore);
    SlugBodySlice(u, 0, |v|);
    assert v == [] || v[0] == u[0];
  }

  lemma {:induction false} CollapseRunsOfSlug(v: string, inRun: bool)
    requires forall i :: 0 <= i < |v| ==> IsSlugChar(v[i]) || v[i] == '_'
    requires NoDoubleUnderscore(v)
    requires inRun ==> v == [] || v[0] != '_'
    ensures CollapseRuns(v, inRun) == v
  {
    if v != [] {
      CollapseRunsOfSlug(v[1..], v[0] == '_');
      assert [v[0]] + v[1..] == v;
    }
  }

  /** A machine key is its own machine key, so deriving keys twice changes nothing. */
  lemma SlugifyOfSlug(v: string)
    requires IsSlug(v)
    ensures Slugify(v) == v
  {
    assert Lower(v) == v;
    CollapseRunsOfSlug(v, false);
    TrimStartKeeps(v, IsUnderscore);
    TrimEndKeeps(v, IsUnderscore);
  }

  lemma SlugifyIdempotent(caption: string)
    ensures Slugify(Slugify(caption)) == Slugify(caption)
  {
    SlugifyOfSlug(Slugify(caption));
  }

  /** One option: the entry's letter, its cleaned text as label, and that label's machine key. */
  function MakeChoice(m: Match): (c: Choice)
    ensures c.key == m.0 && c.caption == CleanCaption(m.1) && c.value == Slugify(c.caption)
  {
    var caption := CleanCaption(m.1);
    Choice(m.0, caption, Slugify(caption))
  }

  /**
   * `parse_options`: no options unless the letters run from A without gap or
   * repeat; otherwise one option per entry, in order, keyed by its letter.
   */
  function ParseOptions(matches: seq<Match>): (r: seq<Choice>)
    ensures r != [] <==> matches != [] && LettersFromA(matches)
    ensures r != [] ==> |r| == |matches|
    ensures r != [] ==> forall i :: 0 <= i < |r| ==> r[i] == MakeChoice(matches[i])
  {
    if matches == [] || !LettersFromA(matches) then []
    else seq(|matches|, i requires 0 <= i < |matches| => MakeChoice(matches[i]))
  }

  /** Options always carry consecutive letters from A and slug-shaped values. */
  lemma ParseOptionsShape(matches: seq<Match>)
    ensures forall i :: 0 <= i < |ParseOptions(matches)| ==>
      ParseOptions(matches)[i].key as int == 'A' as int + i && IsSlug(ParseOptions(matches)[i].value)
  {
    var r := ParseOptions(matches);
  }

  /** A lower-case word is its own machine key. */
  lemma SlugOfWord(w: string)
    requires w != [] && forall i :: 0 <= i < |w| ==> 'a' <= w[i] <= 'z'
    ensures Slugify(w) == w
  {
    SlugifyOfSlug(w);
  }

  /** The product-choice example: "R-Blade" gets the key "r_blade". */
  lemma SlugExample()
    ensures Slugify("R-Blade") == "r_blade"
  {
    assert Lower("R-Blade") == "r-blade";
    var c := CollapseRuns("r-blade", false);
    assert c == "r_blade";
    assert !IsUnderscore(c[0]) && !IsUnderscore(c[|c| - 1]);
    TrimStartKeeps(c, IsUnderscore);
    TrimEndKeeps(c, IsUnderscore);
  }

  /** Text already trimmed and not ending in a comma is its own label. */
  lemma CleanCaptionKeeps(w: string)
    requires IsStripped(w) && (w == [] || w[|w| - 1] != ',')
    ensures CleanCaption(w) == w
  {
    StripOfStripped(w);
    TrimEndKeeps(w, IsComma);
  }

  /** An entry whose text is one capitalised word keeps it as label, lower-cased as value. */
  lemma WordChoice(letter: char, w: string, v: string)
    requires w != [] && IsStripped(w) && w[|w| - 1] != ','
    requires Lower(w) == v && forall i :: 0 <= i < |v| ==> 'a' <= v[i] <= 'z'
    ensures MakeChoice((letter, w)) == Choice(letter, w, v)
  {
    CleanCaptionKeeps(w);
    assert Lower(v) == v;
    assert Slugify(w) == Slugify(v);
    SlugOfWord(v);
  }

  /** A then C has a gap, so no option survives. */
  lemma ParseOptionsRejectsGap()
    ensures ParseOptions([('A', "Red"), ('C', "Green")]) == []
  {
    assert [('A', "Red"), ('C', "Green")][1].0 as int != 'A' as int + 1;
  }

  /** The reply is a dict whose `question` is a string that is not blank. */
  predicate HasQuestion(reply: Value) {
    reply.Obj? && "question" in reply.fields && reply.fields["question"].Str? &&
    Strip(reply.fields["question"].s) != ""
  }

  /** The reply is a dict whose `questions` is a non-empty list. */
  predicate HasQuestions(reply: Value) {
    reply.Obj? && "questions" in reply.fields && reply.fields["questions"].Arr? &&
    reply.fields["questions"].items != []
  }

  /**
   * `_extract_message`: a non-blank string `question` wins, stripped; else a
   * non-empty `questions` list joined by newlines, dropping falsy items;
   * else None. Anything but a non-empty dict gives None.
   */
  function ExtractMessage(reply: Value): (r: Option<string>)
    ensures !reply.Obj? || !Truthy(reply) ==> r == None
    ensures HasQuestion(reply) ==> r == Some(Strip(reply.fields["question"].s))
    ensures !HasQuestion(reply) && HasQuestions(reply) ==>
      r == Some(Join(RenderTruthy(reply.fields["questions"].items), "\n"))
    ensures !HasQuestion(reply) && !HasQuestions(reply) ==> r == None
  {
    if !Truthy(reply) || !reply.Obj? then None
    else
      var q := Get(reply.fields, "question", Null);
      if q.Str? && Strip(q.s) != "" then Some(Strip(q.s))
      else
        var qs := Get(reply.fields, "questions", Null);
        if qs.Arr? && qs.items != [] then Some(Join(RenderTruthy(qs.items), "\n"))
        else None
  }

  /** The three statuses that mean the gate is finished. */
  const CompletionStatuses: set<string> := {"ok", "complete", "done"}

  /** `_resolve_status`: the lower-cased status when it is ok, complete or done, else needs_info. */
  function ResolveStatus(parsed: Value): (r: string)
    ensures r in CompletionStatuses || r == "needs_info"
    ensures r in CompletionStatuses <==>
      Truthy(parsed) && parsed.Obj? && Lower(Render(Get(parsed.fields, "status", Str("")))) in CompletionStatuses
    ensures r in CompletionStatuses ==> r == Lower(Render(parsed.fields["status"]))
    ensures r != "error"
  {
    if !Truthy(parsed) || !parsed.Obj? then "needs_info"
    else
      var raw := Lower(Render(Get(parsed.fields, "status", Str(""))));
      if raw in CompletionStatuses then
        assert |raw| != |"error"|;
        raw
      else "needs_info"
  }

  /** Feeding a resolved status back as a reply status resolves to the same status. */
  lemma ResolveStatusStable(parsed: Value)
    ensures ResolveStatus(Obj(map["status" := Str(ResolveStatus(parsed))])) == ResolveStatus(parsed)
  {
    var r := ResolveStatus(parsed);
    assert Lower("ok") == "ok";
    assert Lower("complete") == "complete";
    assert Lower("done") == "done";
    assert Lower("needs_info") == "needs_info";
    assert "status" in map["status" := Str(r)];
  }

  /** The next gate's number, name and reply, as recorded by an auto-advance. */
  datatype NextGateReply = NextGateReply(gateNumber: int, gateName: string, response: Value)

  /** The orchestration metadata the display reads: `advanced_to_gate`, `next_gate`, `next_gate_error`. */
  datatype Metadata = Metadata(
    advancedToGate: Option<int>,
    nextGate: Option<NextGateReply>,
    nextGateError: Option<string>)

  datatype DisplayError = DisplayError(code: string, message: string)

  /** The unified display object. */
  datatype Display = Display(
    message: string,
    options: seq<Choice>,
    warnings: seq<string>,
    error: Option<DisplayError>,
    gateNumber: int,
    gateName: string,
    status: string)

  predicate Advanced(m: Metadata) {
    m.advancedToGate.Some? && m.advancedToGate.value != 0
  }

  predicate FetchFailed(m: Metadata) {
    m.nextGateError.Some? && m.nextGateError.value != ""
  }

  /** `_extract_message(reply) or raw_text` */
  function MessageOr(reply: Value, rawText: string): (r: string)
    ensures ExtractMessage(reply).Some? && ExtractMessage(reply).value != "" ==> r == ExtractMessage(reply).value
    ensures ExtractMessage(reply).None? || ExtractMessage(reply).value == "" ==> r == rawText
  {
    match ExtractMessage(reply)
    case Some(m) => if m != "" then m else rawText
    case None => rawText
  }

  /** The rendered truthy items of a dict's `warnings` list, if it has one. */
  function WarningsOf(reply: Value): (r: Option<seq<string>>)
    ensures r.Some? <==> reply.Obj? && "warnings" in reply.fields && reply.fields["warnings"].Arr?
  {
    if reply.Obj? && "warnings" in reply.fields && reply.fields["warnings"].Arr?
    then Some(RenderTruthy(reply.fields["warnings"].items))
    else None
  }

  /**
   * The warnings shown: the rendered truthy items of the next gate's reply's
   * `warnings` list when it has one, else those of the current reply's.
   * (A dict holding a `warnings` key is non-empty, hence truthy, so the
   * source's `if parsed` adds no condition.)
   */
  function DisplayWarnings(parsed: Value, metadata: Metadata): (r: seq<string>)
    ensures metadata.nextGate.Some? && WarningsOf(metadata.nextGate.value.response).Some? ==>
      r == RenderTruthy(metadata.nextGate.value.response.fields["warnings"].items)
    ensures (metadata.nextGate.None? || WarningsOf(metadata.nextGate.value.response).None?) ==>
      if WarningsOf(parsed).Some? then r == RenderTruthy(parsed.fields["warnings"].items) else r == []
  {
    if metadata.nextGate.Some? && WarningsOf(metadata.nextGate.value.response).Some?
    then WarningsOf(metadata.nextGate.value.response).value
    else if WarningsOf(parsed).Some? then WarningsOf(parsed).value
    else []
  }

  /** The message of a fetched next-gate reply: a dict's message, a string itself, else the raw text. */
  function NextMessage(response: Value, rawText: string): (m: string)
    ensures response.Obj? ==> m == MessageOr(response, rawText)
    ensures response.Str? ==> m == response.s
    ensures !response.Obj? && !response.Str? ==> m == rawText
  {
    if response.Obj? then MessageOr(response, rawText)
    else if response.Str? then response.s
    else rawText
  }

  /** The display after an auto-advance whose reply was fetched: the next gate's view. */
  function NextGateDisplay(next: NextGateReply, rawText: string, warnings: seq<string>,
                           findall: string -> seq<Match>): (d: Display)
    ensures d.gateNumber == next.gateNumber && d.gateName == next.gateName
    ensures d.message == NextMessage(next.response, rawText)
    ensures d.options == ParseOptions(findall(d.message))
    ensures d.status == (if next.response.Obj? then ResolveStatus(next.response) else "needs_info")
    ensures d.error == None && d.warnings == warnings
  {
    var message := NextMessage(next.response, rawText);
    Display(message, ParseOptions(findall(message)), warnings, None, next.gateNumber, next.gateName,
            ResolveStatus(if next.response.Obj? then next.response else Null))
  }

  /** The display after an auto-advance whose fetch failed: a generic message, status `error`. */
  function FetchFailedDisplay(advancedTo: int, warnings: seq<string>): (d: Display)
    ensures d.gateNumber == advancedTo && d.gateName == "Gate " + IntToString(advancedTo)
    ensures d.message == "Moving to next step..." && d.options == [] && d.status == "error"
    ensures d.error == None && d.warnings == warnings
  {
    Display("Moving to next step...", [], warnings, None, advancedTo, "Gate " + IntToString(advancedTo), "error")
  }

  /** The display without advancement: the current gate's own reply. */
  function CurrentGateDisplay(parsed: Value, rawText: string, gateNumber: int, gateName: string,
                              warnings: seq<string>, findall: string -> seq<Match>): (d: Display)
    ensures d.gateNumber == gateNumber && d.gateName == gateName
    ensures d.message == MessageOr(parsed, rawText)
    ensures d.options == ParseOptions(findall(d.message))
    ensures d.status == ResolveStatus(parsed) && d.status != "error"
    ensures d.error == None && d.warnings == warnings
  {
    var message := MessageOr(parsed, rawText);
    var status := ResolveStatus(parsed);
    Display(message, ParseOptions(findall(message)), warnings, None, gateNumber, gateName, status)
  }

  /**
   * `build_display`: after an auto-advance with a fetched reply it shows the
   * next gate; after an auto-advance whose fetch failed, a generic message
   * under the advanced-to gate with status `error`; otherwise the current
   * gate's own reply. Warnings from the next gate's reply replace those of
   * the current reply.
   */
  function BuildDisplay(
    parsed: Value,
    rawText: string,
    metadata: Metadata,
    gateNumber: int,
    gateName: string,
    findall: string -> seq<Match>): (d: Display)
    ensures d.error == None
    ensures d.status in CompletionStatuses || d.status == "needs_info" || d.status == "error"
    ensures d.status == "error" <==> Advanced(metadata) && metadata.nextGate.None? && FetchFailed(metadata)
    ensures Advanced(metadata) && metadata.nextGate.Some? ==>
      d == NextGateDisplay(metadata.nextGate.value, rawText, d.warnings, findall)
    ensures Advanced(metadata) && metadata.nextGate.None? && FetchFailed(metadata) ==>
      d == FetchFailedDisplay(metadata.advancedToGate.value, d.warnings)
    ensures !Advanced(metadata) || (metadata.nextGate.None? && !FetchFailed(metadata)) ==>
      d == CurrentGateDisplay(parsed, rawText, gateNumber, gateName, d.warnings, findall)
    ensures d.warnings == DisplayWarnings(parsed, metadata)
  {
    var warnings := DisplayWarnings(parsed, metadata);
    if Advanced(metadata) && metadata.nextGate.Some? then
      NextGateDisplay(metadata.nextGate.value, rawText, warnings, findall)
    else if Advanced(metadata) && FetchFailed(metadata) then
      FetchFailedDisplay(metadata.advancedToGate.value, warnings)
    else
      CurrentGateDisplay(parsed, rawText, gateNumber, gateName, warnings, findall)
  }

  /** `build_error_display`: status `error`, no options or warnings, and the error carries the message. */
  function BuildErrorDisplay(
    code: string := "error",
    message: string := "An error occurred",
    gateNumber: int := 0,
    gateName: string := ""): (d: Display)
    ensures d.status == "error" && d.options == [] && d.warnings == []
    ensures d.error == Some(DisplayError(code, message)) && d.error.value.message == d.message
    ensures d.gateNumber == gateNumber && d.gateName == gateName
  {
    Display(message, [], [], Some(DisplayError(code, message)), gateNumber, gateName, "error")
  }
}
