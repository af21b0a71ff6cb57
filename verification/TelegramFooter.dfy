/**
 * The Telegram submission parser: the footer expression `\n---\n([\s\S]+?)\n---\s*$`, the reply
 * pattern `^\[([0-9a-f-]{36})\]\s*([\s\S]+)`, and the key/value lines of the footer.
 */
module TelegramFooter {
  import opened Common
  import opened Text

  const OPENING: string := "\n---\n"
  const CLOSING: string := "\n---"

  // ---- The footer expression, as a backtracking matcher runs it --------------------------------

  predicate OpensAt(raw: string, i: nat) {
    i + 5 <= |raw| && raw[i..i + 5] == OPENING
  }

  /** The closing fence stands at `e` and only white space follows to the end. */
  ghost predicate ClosesAt(raw: string, e: nat) {
    e + 4 <= |raw| && raw[e..e + 4] == CLOSING && forall k :: e + 4 <= k < |raw| ==> IsSpace(raw[k])
  }

  datatype Match = Match(start: nat, close: nat)

  /** The lazy group grows one character at a time until the rest of the expression matches. */
  ghost function LazyClose(raw: string, e: nat): (close: Option<nat>)
    ensures close.Some? ==> e <= close.value && ClosesAt(raw, close.value)
    ensures close.None? ==> forall k :: e <= k ==> !ClosesAt(raw, k)
    decreases |raw| + 1 - e
  {
    if e > |raw| then None
    else if ClosesAt(raw, e) then Some(e)
    else LazyClose(raw, e + 1)
  }

  /** A match is tried at each start in turn; the group takes at least one character. */
  ghost function ExecFrom(raw: string, i: nat): (m: Option<Match>)
    ensures m.Some? ==> i <= m.value.start && OpensAt(raw, m.value.start)
    ensures m.Some? ==> m.value.start + 6 <= m.value.close && ClosesAt(raw, m.value.close)
    decreases |raw| + 1 - i
  {
    if i > |raw| then None
    else if OpensAt(raw, i) && LazyClose(raw, i + 6).Some? then Some(Match(i, LazyClose(raw, i + 6).value))
    else ExecFrom(raw, i + 1)
  }

  ghost function FooterExec(raw: string): (m: Option<Match>)
    ensures m.Some? ==> OpensAt(raw, m.value.start)
    ensures m.Some? ==> m.value.start + 6 <= m.value.close && ClosesAt(raw, m.value.close)
  {
    ExecFrom(raw, 0)
  }

  // ---- The same match by one forward and one backward scan -------------------------------------

  function FirstOpening(raw: string, i: nat): (start: Option<nat>)
    ensures start.Some? ==> i <= start.value && OpensAt(raw, start.value)
    ensures start.Some? ==> forall k :: i <= k < start.value ==> !OpensAt(raw, k)
    ensures start.None? ==> forall k :: i <= k ==> !OpensAt(raw, k)
    decreases |raw| + 1 - i
  {
    if i > |raw| then None
    else if OpensAt(raw, i) then Some(i)
    else FirstOpening(raw, i + 1)
  }

  /** The closing fence can only be the last four characters before the trailing white space. */
  function ClosingFence(raw: string): Option<nat> {
    var end := |TrimEnd(raw)|;
    if end >= 4 && raw[end - 4..end] == CLOSING then Some(end - 4) else None
  }

  function Join(start: Option<nat>, close: Option<nat>): Option<Match> {
    if start.Some? && close.Some? && start.value + 6 <= close.value
    then Some(Match(start.value, close.value))
    else None
  }

  function LinearFooter(raw: string): Option<Match> {
    Join(FirstOpening(raw, 0), ClosingFence(raw))
  }

  lemma ClosingFenceUnique(raw: string, e: nat)
    ensures ClosesAt(raw, e) <==> ClosingFence(raw) == Some(e)
  {
    var end := |TrimEnd(raw)|;
    if ClosesAt(raw, e) {
      assert raw[e..e + 4][3] == CLOSING[3];
      assert end == e + 4;
    }
  }

  lemma LazyCloseIsUnique(raw: string, e: nat)
    ensures LazyClose(raw, e) ==
      if ClosingFence(raw).Some? && e <= ClosingFence(raw).value then ClosingFence(raw) else None
  {
    if LazyClose(raw, e).Some? {
      ClosingFenceUnique(raw, LazyClose(raw, e).value);
    } else if ClosingFence(raw).Some? {
      ClosingFenceUnique(raw, ClosingFence(raw).value);
    }
  }

  lemma {:induction false} ExecFromIsLinear(raw: string, i: nat)
    ensures ExecFrom(raw, i) == Join(FirstOpening(raw, i), ClosingFence(raw))
    decreases |raw| + 1 - i
  {
    if i <= |raw| {
      LazyCloseIsUnique(raw, i + 6);
      if !OpensAt(raw, i) {
        ExecFromIsLinear(raw, i + 1);
      } else if ClosingFence(raw).None? || ClosingFence(raw).value < i + 6 {
        ExecFromIsLinear(raw, i + 1);
      }
    }
  }

  /** Backtracking search and linear scan find the same match in every string. */
  lemma FooterIsLinearScan(raw: string)
    ensures FooterExec(raw) == LinearFooter(raw)
  {
    ExecFromIsLinear(raw, 0);
  }

  /** The first opening fence is followed, after at least one character, by a closing fence. */
  ghost predicate FirstFenceCloses(raw: string, i: nat, e: nat) {
    && OpensAt(raw, i) && (forall k: nat :: k < i ==> !OpensAt(raw, k))
    && i + 6 <= e && ClosesAt(raw, e)
  }

  /** A footer is found iff the first opening fence closes, and then the lazy group has one place to stop. */
  lemma FooterFoundIff(raw: string)
    ensures FooterExec(raw).Some? <==> exists i: nat, e: nat :: FirstFenceCloses(raw, i, e)
    ensures forall i: nat, e: nat :: FirstFenceCloses(raw, i, e) ==> FooterExec(raw) == Some(Match(i, e))
  {
    FooterIsLinearScan(raw);
    forall i: nat, e: nat | FirstFenceCloses(raw, i, e) ensures FooterExec(raw) == Some(Match(i, e)) {
      ClosingFenceUnique(raw, e);
      assert FirstOpening(raw, 0) == Some(i);
    }
    if FooterExec(raw).Some? {
      assert FirstFenceCloses(raw, FooterExec(raw).value.start, FooterExec(raw).value.close);
    }
  }

  // ---- Footer lines -----------------------------------------------------------------------------

  function AddLine(meta: map<string, string>, line: string): map<string, string> {
    var colon := IndexOf(line, ':');
    if colon == -1 then meta else meta[Trim(line[..colon]) := Trim(line[colon + 1..])]
  }

  function MetaOf(lines: seq<string>): map<string, string> {
    if lines == [] then map[] else AddLine(MetaOf(lines[..|lines| - 1]), lines[|lines| - 1])
  }

  function Lookup(meta: map<string, string>, key: string): Option<string> {
    if key in meta then Some(meta[key]) else None
  }

  datatype Parsed = Parsed(content: string, agentToken: Option<string>, nonceSig: Option<string>)

  function Capture(raw: string, m: Match): string
    requires m.start + 5 <= m.close <= |raw|
  {
    raw[m.start + 5..m.close]
  }

  function ParseWith(raw: string, found: Option<Match>): Parsed
    requires found.Some? ==> found.value.start + 5 <= found.value.close <= |raw|
  {
    match found
    case None => Parsed(raw, None, None)
    case Some(m) =>
      var meta := MetaOf(Split(Capture(raw, m)));
      Parsed(Trim(raw[..m.start]), Lookup(meta, "agent_token"), Lookup(meta, "nonce_sig"))
  }

  /** What the parser returns, through the expression's own match. */
  ghost function Parse(raw: string): Parsed {
    ParseWith(raw, FooterExec(raw))
  }

  /** `line` says `key: value`: the key ends at its first colon, and both sides are trimmed. */
  ghost predicate Entry(line: string, key: string, value: string) {
    exists c: nat :: EntryAt(line, c, key, value)
  }

  predicate EntryAt(line: string, c: nat, key: string, value: string) {
    c < |line| && line[c] == ':' && ':' !in line[..c] && Trim(line[..c]) == key && Trim(line[c + 1..]) == value
  }

  lemma FirstColon(line: string, k: nat)
    requires k < |line| && line[k] == ':' && ':' !in line[..k]
    ensures IndexOf(line, ':') == k
  {
    forall i | 0 <= i < k ensures line[i] != ':' {
      assert line[i] == line[..k][i];
    }
  }

  lemma EntryIsFirstColon(line: string, key: string, value: string)
    ensures Entry(line, key, value) <==>
      var c := IndexOf(line, ':');
      c != -1 && Trim(line[..c]) == key && Trim(line[c + 1..]) == value
  {
    var c := IndexOf(line, ':');
    if c != -1 {
      assert EntryAt(line, c, Trim(line[..c]), Trim(line[c + 1..]));
    }
    if k: nat :| EntryAt(line, k, key, value) {
      FirstColon(line, k);
    }
  }

  lemma AddLineSays(meta: map<string, string>, line: string, key: string, value: string)
    ensures Lookup(AddLine(meta, line), key) == Some(value) <==>
      Entry(line, key, value) || (Lookup(meta, key) == Some(value) && forall w :: !Entry(line, key, w))
  {
    var c := IndexOf(line, ':');
    forall w ensures Entry(line, key, w) <==> c != -1 && Trim(line[..c]) == key && Trim(line[c + 1..]) == w {
      EntryIsFirstColon(line, key, w);
    }
    if c != -1 && Trim(line[..c]) == key {
      assert Entry(line, key, Trim(line[c + 1..]));
    }
  }

  /** The last line that says anything about the key says this. */
  ghost predicate LastSays(lines: seq<string>, key: string, value: string) {
    exists k: nat :: SaysLast(lines, k, key, value)
  }

  ghost predicate SaysLast(lines: seq<string>, k: nat, key: string, value: string) {
    k < |lines| && Entry(lines[k], key, value) && forall j, w :: k < j < |lines| ==> !Entry(lines[j], key, w)
  }

  /** The collected keys: a key has a value if and only if the last line that names it says so. */
  lemma {:induction false} MetaIsLastSaid(lines: seq<string>, key: string, value: string)
    ensures Lookup(MetaOf(lines), key) == Some(value) <==> LastSays(lines, key, value)
  {
    if lines != [] {
      var front, line := lines[..|lines| - 1], lines[|lines| - 1];
      MetaIsLastSaid(front, key, value);
      AddLineSays(MetaOf(front), line, key, value);
      LastSaysSnoc(front, line, key, value);
      assert lines == front + [line];
    }
  }

  lemma LastSaysSnoc(front: seq<string>, line: string, key: string, value: string)
    ensures LastSays(front + [line], key, value) <==>
      Entry(line, key, value) || (LastSays(front, key, value) && forall w :: !Entry(line, key, w))
  {
    var lines := front + [line];
    if Entry(line, key, value) {
      assert SaysLast(lines, |front|, key, value);
    }
    if k: nat :| SaysLast(lines, k, key, value) {
      if k < |front| {
        assert lines[|front|] == line;
        forall j, w | k < j < |front| ensures !Entry(front[j], key, w) {
          assert lines[j] == front[j];
        }
        assert SaysLast(front, k, key, value);
      }
    }
    if LastSays(front, key, value) && forall w :: !Entry(line, key, w) {
      var k: nat :| SaysLast(front, k, key, value);
      forall j, w | k < j < |lines| ensures !Entry(lines[j], key, w) {
        assert j < |front| ==> lines[j] == front[j];
      }
      assert SaysLast(lines, k, key, value);
    }
  }

  /** A field has its value if and only if the last line of the footer naming it says so. */
  ghost predicate FieldIs(field: Option<string>, lines: seq<string>, key: string) {
    forall value :: field == Some(value) <==> LastSays(lines, key, value)
  }

  /**
   * What the parser returns, on the text alone: everything and no field when no footer is found; else
   * the trimmed text before the first fence, and the fields the footer's lines say.
   */
  lemma ParseMeaning(raw: string)
    ensures (forall i: nat, e: nat :: !FirstFenceCloses(raw, i, e)) ==> Parse(raw) == Parsed(raw, None, None)
    ensures forall i: nat, e: nat :: FirstFenceCloses(raw, i, e) ==>
      && Parse(raw).content == Trim(raw[..i])
      && FieldIs(Parse(raw).agentToken, Split(raw[i + 5..e]), "agent_token")
      && FieldIs(Parse(raw).nonceSig, Split(raw[i + 5..e]), "nonce_sig")
  {
    FooterFoundIff(raw);
    forall i: nat, e: nat | FirstFenceCloses(raw, i, e)
      ensures Parse(raw).content == Trim(raw[..i])
      ensures FieldIs(Parse(raw).agentToken, Split(raw[i + 5..e]), "agent_token")
      ensures FieldIs(Parse(raw).nonceSig, Split(raw[i + 5..e]), "nonce_sig")
    {
      assert FooterExec(raw) == Some(Match(i, e));
      var lines := Split(raw[i + 5..e]);
      forall value
        ensures Lookup(MetaOf(lines), "agent_token") == Some(value) <==> LastSays(lines, "agent_token", value)
      {
        MetaIsLastSaid(lines, "agent_token", value);
      }
      forall value ensures Lookup(MetaOf(lines), "nonce_sig") == Some(value) <==> LastSays(lines, "nonce_sig", value) {
        MetaIsLastSaid(lines, "nonce_sig", value);
      }
    }
  }

  method ParseSubmissionFooter(raw: string) returns (parsed: Parsed)
    ensures parsed == Parse(raw)
    ensures (forall i: nat, e: nat :: !FirstFenceCloses(raw, i, e)) ==> parsed == Parsed(raw, None, None)
    ensures forall i: nat, e: nat :: FirstFenceCloses(raw, i, e) ==> parsed.content == Trim(raw[..i])
  {
    ParseMeaning(raw);
    FooterIsLinearScan(raw);
    var found := LinearFooter(raw);
    if found.None? {
      return Parsed(raw, None, None);
    }
    var content := Trim(raw[..found.value.start]);
    var meta := CollectMeta(Split(Capture(raw, found.value)));
    parsed := Parsed(content, Lookup(meta, "agent_token"), Lookup(meta, "nonce_sig"));
  }

  method CollectMeta(lines: seq<string>) returns (meta: map<string, string>)
    ensures meta == MetaOf(lines)
  {
    meta := map[];
    for i := 0 to |lines|
      invariant meta == MetaOf(lines[..i])
    {
      assert lines[..i + 1] == lines[..i] + [lines[i]];
      MetaSnoc(lines[..i], lines[i]);
      var line := lines[i];
      var colon := IndexOf(line, ':');
      if colon == -1 { continue; }
      meta := meta[Trim(line[..colon]) := Trim(line[colon + 1..])];
    }
    assert lines[..|lines|] == lines;
  }

  // ---- Incoming messages ------------------------------------------------------------------------

  datatype Action = StartReply | Submit(registrationId: string, content: string) | Ignore

  predicate IsIdChar(c: char) {
    '0' <= c <= '9' || 'a' <= c <= 'f' || 'A' <= c <= 'F' || c == '-'
  }

  /** Both groups of the reply pattern; the greedy white space gives one character back if it took everything. */
  function ReplyMatch(text: string): Option<(string, string)> {
    if |text| > 38 && text[0] == '[' && text[37] == ']' && (forall i :: 1 <= i < 37 ==> IsIdChar(text[i])) then
      var rest := text[38..];
      Some((text[1..37], if TrimStart(rest) != "" then TrimStart(rest) else rest[|rest| - 1..]))
    else None
  }

  predicate IsStart(text: string) {
    text == "/start" || (|text| >= 7 && text[..7] == "/start ")
  }

  function Receive(message: string): Action {
    var text := Trim(message);
    if IsStart(text) then StartReply
    else
      match ReplyMatch(text)
      case None => Ignore
      case Some((id, content)) => Submit(id, Trim(content))
  }

  /** A reply tag: 36 hexadecimal digits or dashes in brackets, and something after them. */
  predicate Tagged(text: string) {
    && |text| > 38 && text[0] == '[' && text[37] == ']'
    && forall i :: 1 <= i < 37 ==>
         '0' <= text[i] <= '9' || 'a' <= text[i] <= 'f' || 'A' <= text[i] <= 'F' || text[i] == '-'
  }

  /** Which messages are submissions, of what, on the trimmed text alone. */
  lemma ReceiveMeaning(message: string)
    ensures var text := Trim(message);
      && (Tagged(text) ==> Receive(message) == Submit(text[1..37], Trim(text[38..])))
      && (text == "/start" || (|text| >= 7 && text[..7] == "/start ") ==> Receive(message) == StartReply)
      && (!Tagged(text) && text != "/start" && !(|text| >= 7 && text[..7] == "/start ") ==> Receive(message) == Ignore)
  {
    var text := Trim(message);
    if Tagged(text) {
      TaggedIsNotStart(text);
      var rest := text[38..];
      assert rest[|rest| - 1] == text[|text| - 1];
      TrimStartKeepsInk(rest, |rest| - 1);
    }
  }

  // ---- Round trip -------------------------------------------------------------------------------

  function FooterLines(token: string, sig: string): string {
    Line("agent_token", token) + "\n" + Line("nonce_sig", sig)
  }

  /** The submission text after the tag. */
  function Body(content: string, token: string, sig: string): string {
    content + "\n\n---\n" + FooterLines(token, sig) + "\n---"
  }

  /** The message an agent is told to send. */
  function Print(id: string, content: string, token: string, sig: string): string {
    "[" + id + "] " + Body(content, token, sig)
  }

  predicate FooterValue(s: string) {
    Trimmed(s) && '\n' !in s
  }

  ghost predicate HasFence(s: string) {
    exists i :: OpensAt(s, i)
  }

  lemma TrimAfterSpace(value: string)
    requires Trimmed(value)
    ensures Trim(" " + value) == value
  {
    if value == "" {
      assert " " + value == " ";
      assert TrimStart(" ") == "";
    } else {
      TrimPadded(" ", value, "");
      assert " " + value + "" == " " + value;
    }
  }

  function Line(key: string, value: string): string {
    key + ":" + (" " + value)
  }

  lemma KeyLine(meta: map<string, string>, key: string, value: string)
    requires ':' !in key && Trimmed(key) && Trimmed(value)
    ensures AddLine(meta, Line(key, value)) == meta[key := value]
  {
    var line := Line(key, value);
    IndexOfFirst(key, " " + value, ':');
    assert line[..|key|] == key;
    assert line[|key| + 1..] == " " + value;
    TrimTrimmed(key);
    TrimAfterSpace(value);
  }

  lemma SplitTwoLines(before: string, l1: string, l2: string) returns (earlier: seq<string>)
    requires before == "" || before[|before| - 1] == '\n'
    requires '\n' !in l1 && '\n' !in l2
    ensures Split(before + (l1 + "\n" + l2)) == earlier + [l1] + [l2]
  {
    SplitOneLine(l1);
    SplitOneLine(l2);
    SplitAppend(l1, l2);
    if before == "" {
      earlier := [];
      assert before + (l1 + "\n" + l2) == l1 + "\n" + l2;
    } else {
      var b := before[..|before| - 1];
      earlier := Split(b);
      SplitAppend(b, l1 + "\n" + l2);
      assert before + (l1 + "\n" + l2) == b + "\n" + (l1 + "\n" + l2);
      assert earlier + ([l1] + [l2]) == earlier + [l1] + [l2];
    }
  }

  /** Whatever lines come before, the last two footer lines decide: the last key wins. */
  lemma LastLinesWin(before: string, k1: string, v1: string, k2: string, v2: string)
    requires before == "" || before[|before| - 1] == '\n'
    requires ':' !in k1 && Trimmed(k1) && '\n' !in k1 && ':' !in k2 && Trimmed(k2) && '\n' !in k2 && k1 != k2
    requires FooterValue(v1) && FooterValue(v2)
    ensures var meta := MetaOf(Split(before + (Line(k1, v1) + "\n" + Line(k2, v2))));
      Lookup(meta, k1) == Some(v1) && Lookup(meta, k2) == Some(v2)
  {
    var l1, l2 := Line(k1, v1), Line(k2, v2);
    var earlier := SplitTwoLines(before, l1, l2);
    MetaSnoc(earlier, l1);
    MetaSnoc(earlier + [l1], l2);
    KeyLine(MetaOf(earlier), k1, v1);
    KeyLine(MetaOf(earlier + [l1]), k2, v2);
  }

  lemma MetaSnoc(lines: seq<string>, line: string)
    ensures MetaOf(lines + [line]) == AddLine(MetaOf(lines), line)
  {
    assert (lines + [line])[..|lines|] == lines;
  }

  lemma FooterLinesWin(before: string, token: string, sig: string)
    requires before == "" || before[|before| - 1] == '\n'
    requires FooterValue(token) && FooterValue(sig)
    ensures var meta := MetaOf(Split(before + FooterLines(token, sig)));
      Lookup(meta, "agent_token") == Some(token) && Lookup(meta, "nonce_sig") == Some(sig)
  {
    assert "agent_token"[0] != "nonce_sig"[0];
    LastLinesWin(before, "agent_token", token, "nonce_sig", sig);
  }

  /** In a printed body the fence of the footer is the first one unless the content brings its own. */
  lemma FirstFence(content: string, token: string, sig: string) returns (start: nat)
    ensures FirstOpening(Body(content, token, sig), 0) == Some(start)
    ensures start <= |content| + 1
    ensures start == |content| + 1 <==> !HasFence(content + "\n")
    ensures start < |content| + 1 ==> start + 5 <= |content| + 1
  {
    var p := content + "\n";
    var raw := Body(content, token, sig);
    assert raw[|p|..|p| + 5] == OPENING;
    assert OpensAt(raw, |p|);
    start := FirstOpening(raw, 0).value;
    assert raw[..|p|] == p;
    if start < |p| {
      var fence := raw[start..start + 5];
      assert fence[1] == raw[start + 1] && fence[2] == raw[start + 2];
      assert fence[3] == raw[start + 3] && fence[4] == raw[start + 4];
      assert raw[|p| - 1] == '\n' && raw[|p|] == '\n';
      assert start + 5 <= |p|;
      assert p[start..start + 5] == raw[start..start + 5];
      assert OpensAt(p, start);
    } else {
      forall i: nat ensures !OpensAt(p, i) {
        if i + 5 <= |p| {
          assert raw[i..i + 5] == p[i..i + 5];
          assert !OpensAt(raw, i);
        }
      }
    }
  }

  lemma BodyCloses(content: string, token: string, sig: string)
    ensures ClosingFence(Body(content, token, sig)) == Some(|content| + 6 + |FooterLines(token, sig)|)
  {
    var raw := Body(content, token, sig);
    var head := content + "\n" + OPENING + FooterLines(token, sig);
    assert raw == head + CLOSING;
    assert raw[|raw| - 1] == CLOSING[3];
    assert raw[|raw| - 4..|raw|] == CLOSING;
  }

  /** The footer of a printed body is matched from the first fence up to its final one. */
  lemma BodyMatch(content: string, token: string, sig: string, start: nat)
    requires FirstOpening(Body(content, token, sig), 0) == Some(start) && start <= |content| + 1
    ensures FooterExec(Body(content, token, sig))
         == Some(Match(start, |content| + 6 + |FooterLines(token, sig)|))
  {
    BodyCloses(content, token, sig);
    FooterIsLinearScan(Body(content, token, sig));
    assert |FooterLines(token, sig)| >= 1;
  }

  /** What is captured between the first fence and the final one ends with the two footer lines. */
  lemma BodyCapture(content: string, token: string, sig: string, start: nat) returns (before: string)
    requires start <= |content| + 1
    ensures before == "" || before[|before| - 1] == '\n'
    ensures Capture(Body(content, token, sig), Match(start, |content| + 6 + |FooterLines(token, sig)|))
         == before + FooterLines(token, sig)
  {
    var f := FooterLines(token, sig);
    var head := content + "\n" + OPENING;
    var raw := Body(content, token, sig);
    assert |head| == |content| + 6;
    assert raw == head + f + CLOSING;
    before := head[start + 5..];
    assert head[|head| - 1] == OPENING[4];
    assert raw[start + 5..|head| + |f|] == before + f;
  }

  /** The text kept as content: everything before the first fence, trimmed. */
  lemma BodyContent(content: string, token: string, sig: string, start: nat)
    requires Trimmed(content) && content != ""
    requires OpensAt(Body(content, token, sig), start) && start <= |content| + 1
    requires start < |content| + 1 ==> start + 5 <= |content| + 1
    ensures Trim(Body(content, token, sig)[..start]) != ""
    ensures Trim(Body(content, token, sig)[..start]) == content <==> start == |content| + 1
  {
    var raw := Body(content, token, sig);
    assert raw[0] == content[0];
    assert raw[start..start + 5][0] == OPENING[0];
    TrimKeepsInk(raw[..start]);
    if start == |content| + 1 {
      assert raw[..start] == "" + content + "\n";
      TrimPadded("", content, "\n");
    }
  }

  /**
   * Any trimmed, non-empty content: the token and the signature come back from the final footer,
   * the stored content is not empty, and it is the content sent if and only if the content has no
   * fence line of its own.
   */
  lemma ParsePrinted(content: string, token: string, sig: string)
    requires Trimmed(content) && content != "" && FooterValue(token) && FooterValue(sig)
    ensures var parsed := Parse(Body(content, token, sig));
      && parsed.agentToken == Some(token)
      && parsed.nonceSig == Some(sig)
      && parsed.content != ""
      && (parsed.content == content <==> !HasFence(content + "\n"))
  {
    var start := FirstFence(content, token, sig);
    BodyMatch(content, token, sig, start);
    var before := BodyCapture(content, token, sig, start);
    FooterLinesWin(before, token, sig);
    BodyContent(content, token, sig, start);
  }

  lemma ReplyMatchTagged(id: string, body: string)
    requires |id| == 36 && forall i :: 0 <= i < 36 ==> IsIdChar(id[i])
    requires body != "" && !IsSpace(body[0])
    ensures ReplyMatch("[" + id + "] " + body) == Some((id, body))
  {
    var text := "[" + id + "] " + body;
    assert text[1..37] == id && text[37] == ']';
    assert forall i :: 1 <= i < 37 ==> text[i] == id[i - 1];
    assert text[38..] == " " + body;
    TrimStartPadded(" ", body);
  }

  lemma TaggedIsNotStart(text: string)
    requires text != "" && text[0] == '['
    ensures !IsStart(text)
  {
    assert |text| >= 7 ==> text[..7][0] == '[';
  }

  lemma ReceiveTagged(id: string, body: string)
    requires |id| == 36 && forall i :: 0 <= i < 36 ==> IsIdChar(id[i])
    requires body != "" && Trimmed(body)
    ensures Receive("[" + id + "] " + body) == Submit(id, body)
  {
    var text := "[" + id + "] " + body;
    ReplyMatchTagged(id, body);
    assert text[0] == '[' && text[|text| - 1] == body[|body| - 1];
    TrimTrimmed(text);
    TrimTrimmed(body);
    TaggedIsNotStart(text);
  }

  lemma ReceivePrinted(id: string, content: string, token: string, sig: string)
    requires |id| == 36 && forall i :: 0 <= i < 36 ==> IsIdChar(id[i])
    requires Trimmed(content) && content != ""
    ensures Receive(Print(id, content, token, sig)) == Submit(id, Body(content, token, sig))
  {
    BodyIsTrimmed(content, token, sig);
    ReceiveTagged(id, Body(content, token, sig));
  }

  lemma BodyIsTrimmed(content: string, token: string, sig: string)
    requires Trimmed(content) && content != ""
    ensures Trimmed(Body(content, token, sig)) && Body(content, token, sig) != ""
  {
    var body := Body(content, token, sig);
    assert body[0] == content[0] && body[|body| - 1] == CLOSING[3];
  }

  /** Print, receive, parse: id, token and signature return, and the content too when it has no fence line. */
  lemma TelegramRoundTrip(id: string, content: string, token: string, sig: string)
    requires |id| == 36 && forall i :: 0 <= i < 36 ==> IsIdChar(id[i])
    requires Trimmed(content) && content != "" && FooterValue(token) && FooterValue(sig)
    ensures var action := Receive(Print(id, content, token, sig));
      && action.Submit? && action.registrationId == id
      && var parsed := Parse(action.content);
         && parsed.agentToken == Some(token) && parsed.nonceSig == Some(sig)
         && parsed.content != ""
         && (parsed == Parsed(content, Some(token), Some(sig)) <==> !HasFence(content + "\n"))
  {
    ReceivePrinted(id, content, token, sig);
    ParsePrinted(content, token, sig);
  }

  /** A trimmed, non-empty text is never parsed into empty content. */
  lemma ParsedContentNeverEmpty(raw: string)
    requires Trimmed(raw) && raw != ""
    ensures Parse(raw).content != ""
  {
    var found := FooterExec(raw);
    if found.Some? {
      assert raw[found.value.start..found.value.start + 5][0] == OPENING[0];
      TrimKeepsInk(raw[..found.value.start]);
    }
  }

  /** No message at all can store an empty deliverable. */
  lemma StoredContentNeverEmpty(message: string)
    requires Receive(message).Submit?
    ensures Parse(Receive(message).content).content != ""
  {
    var text := Trim(message);
    ReplyGroupHasInk(text);
    ParsedContentNeverEmpty(Trim(ReplyMatch(text).value.1));
  }

  lemma ReplyGroupHasInk(text: string)
    requires Trimmed(text) && ReplyMatch(text).Some?
    ensures Trim(ReplyMatch(text).value.1) != ""
  {
    var rest := text[38..];
    assert rest[|rest| - 1] == text[|text| - 1];
    TrimKeepsInk(ReplyMatch(text).value.1);
  }
}
