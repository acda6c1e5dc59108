/**
 * Extraction of the anti-bot challenge script from the challenge page:
 * a two-variable state machine (`isScriptStarted`, `scriptContent`) driven
 * by the tokenizer's open-tag, text and close-tag callbacks.
 */
module ScriptExtractor {
  import opened Html
  import AssocList

  predicate IsScriptOpen(e: Event) { e.OpenTag? && e.name == "script" }
  predicate IsScriptClose(e: Event) { e.CloseTag? && e.name == "script" }

  /** The callback state: whether text is being captured, and what has been captured. */
  datatype ScanState = ScanState(started: bool, content: string)

  const Initial := ScanState(false, "")

  /** One tokenizer callback. */
  function Step(st: ScanState, e: Event): ScanState
  {
    match e
    case OpenTag(name, _) =>
      if name == "script" && st.content == "" then st.(started := true) else st
    case Text(t) =>
      if st.started then st.(content := st.content + t) else st
    case CloseTag(name) =>
      if name == "script" then st.(started := false) else st
  }

  /** The state after the callbacks for `evs`, starting in `st`. */
  ghost function RunFrom(st: ScanState, evs: seq<Event>): ScanState
    decreases |evs|
  {
    if evs == [] then st else RunFrom(Step(st, evs[0]), evs[1..])
  }

  // ---------------------------------------------------------------------
  // Reference definition: the first script element that yields any text.

  /** The concatenated payloads of the text events of `evs`. */
  function Texts(evs: seq<Event>): string
  {
    if evs == [] then "" else (if evs[0].Text? then evs[0].text else "") + Texts(evs[1..])
  }

  /** The number of events before the first `</script>`, or all of them. */
  function BodyLength(evs: seq<Event>): (k: nat)
    ensures k <= |evs|
    ensures forall j :: 0 <= j < k ==> !IsScriptClose(evs[j])
    ensures k < |evs| ==> IsScriptClose(evs[k])
  {
    if evs == [] || IsScriptClose(evs[0]) then 0 else 1 + BodyLength(evs[1..])
  }

  /**
   * The text of the first script element whose body holds any text: a
   * script element runs from `<script>` to the next `</script>` (or the end
   * of the document); an element whose text is empty is skipped.
   */
  function FirstScript(evs: seq<Event>): string
    decreases |evs|
  {
    if evs == [] then ""
    else if IsScriptOpen(evs[0]) then
      var k := BodyLength(evs[1..]);
      var t := Texts(evs[1..][..k]);
      if t != "" || k == |evs| - 1 then t else FirstScript(evs[k + 2..])
    else FirstScript(evs[1..])
  }

  // ---------------------------------------------------------------------
  // The state machine agrees with the reference definition.

  lemma {:induction false} RunFromAppend(st: ScanState, a: seq<Event>, b: seq<Event>)
    ensures RunFrom(st, a + b) == RunFrom(RunFrom(st, a), b)
    decreases |a|
  {
    if a == [] {
      assert a + b == b;
    } else {
      assert (a + b)[0] == a[0];
      assert (a + b)[1..] == a[1..] + b;
      RunFromAppend(Step(st, a[0]), a[1..], b);
    }
  }

  /** Inside a script element every text chunk is appended. */
  lemma {:induction false} RunBody(c: string, body: seq<Event>)
    requires forall j :: 0 <= j < |body| ==> !IsScriptClose(body[j])
    ensures RunFrom(ScanState(true, c), body) == ScanState(true, c + Texts(body))
    decreases |body|
  {
    if body != [] {
      var x := if body[0].Text? then body[0].text else "";
      assert Step(ScanState(true, c), body[0]) == ScanState(true, c + x);
      assert RunFrom(ScanState(true, c), body) == RunFrom(ScanState(true, c + x), body[1..]);
      RunBody(c + x, body[1..]);
      assert Texts(body) == x + Texts(body[1..]);
      assert c + x + Texts(body[1..]) == c + (x + Texts(body[1..]));
    }
  }

  /** Once something was captured and its script closed, nothing changes any more. */
  lemma {:induction false} RunCaptured(c: string, evs: seq<Event>)
    requires c != ""
    ensures RunFrom(ScanState(false, c), evs) == ScanState(false, c)
  {
    if evs != [] {
      RunCaptured(c, evs[1..]);
    }
  }

  /** The callbacks compute exactly the reference definition. */
  lemma {:induction false} RunIsFirstScript(evs: seq<Event>)
    ensures RunFrom(Initial, evs).content == FirstScript(evs)
    decreases |evs|
  {
    if evs != [] {
      if IsScriptOpen(evs[0]) {
        var rest := evs[1..];
        var k := BodyLength(rest);
        var body := rest[..k];
        var t := Texts(body);
        assert rest == body + rest[k..];
        RunFromAppend(ScanState(true, ""), body, rest[k..]);
        RunBody("", body);
        assert "" + t == t;
        if k < |rest| {
          assert rest[k..] == [rest[k]] + evs[k + 2..];
          assert Step(ScanState(true, t), rest[k]) == ScanState(false, t);
          if t != "" {
            RunCaptured(t, evs[k + 2..]);
          } else {
            RunIsFirstScript(evs[k + 2..]);
          }
        }
      } else {
        assert Step(Initial, evs[0]) == Initial;
        RunIsFirstScript(evs[1..]);
      }
    }
  }

  /** `catchChallengeScript` after the fetch: run the callbacks over the document and return `scriptContent`. */
  method CatchChallengeScript(evs: seq<Event>) returns (scriptContent: string)
    ensures scriptContent == FirstScript(evs)
  {
    var isScriptStarted := false;
    scriptContent := "";
    var i := 0;
    while i < |evs|
      invariant 0 <= i <= |evs|
      invariant RunFrom(ScanState(isScriptStarted, scriptContent), evs[i..]) == RunFrom(Initial, evs)
      decreases |evs| - i
    {
      assert evs[i..][1..] == evs[i + 1..];
      match evs[i] {
        case OpenTag(name, _) =>
          if name == "script" && scriptContent == "" {
            isScriptStarted := true;
          }
        case Text(text) =>
          if isScriptStarted {
            scriptContent := scriptContent + text;
          }
        case CloseTag(name) =>
          if name == "script" {
            isScriptStarted := false;
          }
      }
      i := i + 1;
    }
    RunIsFirstScript(evs);
  }

  // ---------------------------------------------------------------------
  // Consequences.

  /** Text outside script elements before the first `<script>` never reaches the result. */
  lemma {:induction false} LeadingEventsIgnored(pre: seq<Event>, evs: seq<Event>)
    requires forall j :: 0 <= j < |pre| ==> !IsScriptOpen(pre[j])
    ensures FirstScript(pre + evs) == FirstScript(evs)
  {
    if pre == [] {
      assert pre + evs == evs;
    } else {
      assert (pre + evs)[0] == pre[0];
      assert (pre + evs)[1..] == pre[1..] + evs;
      LeadingEventsIgnored(pre[1..], evs);
    }
  }

  /** A script element with text is the result, whatever its attributes and whatever follows its close tag. */
  lemma FirstNonEmptyScriptWins(attrs: AssocList.Dict<string>, body: seq<Event>, rest: seq<Event>)
    requires forall j :: 0 <= j < |body| ==> !IsScriptClose(body[j])
    requires Texts(body) != ""
    ensures FirstScript([OpenTag("script", attrs)] + body + [CloseTag("script")] + rest) == Texts(body)
  {
    var evs := [OpenTag("script", attrs)] + body + [CloseTag("script")] + rest;
    BodyLengthOf(body, [CloseTag("script")] + rest);
    assert evs[1..] == body + ([CloseTag("script")] + rest);
    assert evs[1..][..|body|] == body;
  }

  /** A script element without text, whatever its attributes, does not stop capture: the next script is taken. */
  lemma EmptyScriptSkipped(attrs: AssocList.Dict<string>, body: seq<Event>, rest: seq<Event>)
    requires forall j :: 0 <= j < |body| ==> !IsScriptClose(body[j])
    requires Texts(body) == ""
    ensures FirstScript([OpenTag("script", attrs)] + body + [CloseTag("script")] + rest) == FirstScript(rest)
  {
    var evs := [OpenTag("script", attrs)] + body + [CloseTag("script")] + rest;
    BodyLengthOf(body, [CloseTag("script")] + rest);
    assert evs[1..] == body + ([CloseTag("script")] + rest);
    assert evs[1..][..|body|] == body;
    assert evs[|body| + 2..] == rest;
  }

  lemma {:induction false} BodyLengthOf(body: seq<Event>, rest: seq<Event>)
    requires forall j :: 0 <= j < |body| ==> !IsScriptClose(body[j])
    requires rest != [] && IsScriptClose(rest[0])
    ensures BodyLength(body + rest) == |body|
  {
    if body != [] {
      assert (body + rest)[1..] == body[1..] + rest;
      BodyLengthOf(body[1..], rest);
    } else {
      assert body + rest == rest;
    }
  }

  /** A document without any `<script>` yields the empty string. */
  lemma {:induction false} NoScriptNoText(evs: seq<Event>)
    requires forall j :: 0 <= j < |evs| ==> !IsScriptOpen(evs[j])
    ensures FirstScript(evs) == ""
  {
    LeadingEventsIgnored(evs, []);
    assert evs + [] == evs;
  }
}
