/** The legacy front-end server's chat controller,
    later/ClientServer/controllers/chatBotClientSideController.ts:
    `formatAnswer`, which turns the Python server's answer into HTML
    (tabs, paragraphs, bold), and the defaulting and fallbacks of the `ask`
    and `getHistory` handlers.

    The sanitiser `xss` and the server's replies are inputs; a JavaScript
    `null` or `undefined` is `None`. */
module ChatBotController {
  import opened Common

  // ---------------------------------------------------------------------
  // formatAnswer
  // ---------------------------------------------------------------------

  /** An answer as the server sends it: text, or some other JSON value,
      which is passed on as it is. JSON `null` is `None` where a value may
      be missing. A number is its decimal value, an array or object its
      rendering. */
  datatype Value = Text(text: string) | Bool(b: bool) | Number(x: real) | Structured(json: string)

  const FourSpaces: string := "    "

  /** `answer.replace(/\t/g, "    ")`. */
  function ExpandTabs(s: string): (r: string)
    ensures '\t' !in r
    ensures '\t' !in s ==> r == s
    ensures forall c :: c != '\t' && c != ' ' ==> (c in r <==> c in s)
  {
    if s == [] then []
    else (if s[0] == '\t' then FourSpaces else [s[0]]) + ExpandTabs(s[1..])
  }

  /** Expanding tabs works piece by piece, and a lone tab becomes four
      spaces: every tab of the text is replaced by four spaces. */
  lemma {:induction false} ExpandTabsAppend(a: string, b: string)
    ensures ExpandTabs(a + b) == ExpandTabs(a) + ExpandTabs(b)
    ensures ExpandTabs("\t") == FourSpaces
    decreases |a|
  {
    if a == [] {
      assert a + b == b;
    } else {
      assert (a + b)[0] == a[0];
      assert (a + b)[1..] == a[1..] + b;
      ExpandTabsAppend(a[1..], b);
    }
  }

  /** One line of the paragraph pass: an empty line vanishes, any other
      is wrapped in a paragraph. */
  function Paragraph(line: string): string {
    if line != "" then "<p>" + line + "</p>" else ""
  }

  /** The pieces concatenated, as `join("")` does. */
  function Concat(pieces: seq<string>): string
    decreases |pieces|
  {
    if pieces == [] then "" else pieces[0] + Concat(pieces[1..])
  }

  function Paragraphs(lines: seq<string>): (r: seq<string>)
    ensures |r| == |lines|
    ensures forall k :: 0 <= k < |lines| ==> r[k] == Paragraph(lines[k])
    decreases |lines|
  {
    if lines == [] then []
    else
      var rest := Paragraphs(lines[1..]);
      assert forall k :: 1 <= k < |lines| ==> lines[k] == lines[1..][k - 1];
      [Paragraph(lines[0])] + rest
  }

  /** `answer.split("\n").map(…).join("")`. */
  function ParagraphPass(s: string): string {
    Concat(Paragraphs(Split(s, "\n")))
  }

  /** The bold markup. */
  const BoldMarker: string := "**"

  function Bold(piece: string): string {
    "<b>" + piece + "</b>"
  }

  /** Piece `k` of the split on the marker after the bold pass: odd
      pieces are the ones between an opening and a closing marker. */
  function BoldPiece(pieces: seq<string>, k: nat): string
    requires k < |pieces|
  {
    if k % 2 == 1 then Bold(pieces[k]) else pieces[k]
  }

  /** The bold pass's pieces from `k` on, concatenated. */
  function BoldFrom(pieces: seq<string>, k: nat): string
    requires k <= |pieces|
    decreases |pieces| - k
  {
    if k == |pieces| then "" else BoldPiece(pieces, k) + BoldFrom(pieces, k + 1)
  }

  /** `answer_split.join("")` after the loop. */
  function BoldPass(s: string): string {
    BoldFrom(Split(s, BoldMarker), 0)
  }

  /** `formatAnswer(answer)`: a non-text answer is returned as it is. */
  function Formatted(answer: Value): (r: Value)
    ensures r.Text? <==> answer.Text?
    ensures !answer.Text? ==> r == answer
  {
    match answer
    case Text(s) => Text(BoldPass(ParagraphPass(ExpandTabs(s))))
    case _ => answer
  }

  /** The pieces from `k` on, concatenated. */
  function ConcatFrom(pieces: seq<string>, k: nat): string
    requires k <= |pieces|
    decreases |pieces| - k
  {
    if k == |pieces| then "" else pieces[k] + ConcatFrom(pieces, k + 1)
  }

  lemma {:induction false} ConcatFromBold(parts: seq<string>, pieces: seq<string>, k: nat)
    requires |parts| == |pieces| && k <= |parts|
    requires forall j :: k <= j < |parts| ==> parts[j] == BoldPiece(pieces, j)
    ensures ConcatFrom(parts, k) == BoldFrom(pieces, k)
    decreases |parts| - k
  {
    if k < |parts| {
      ConcatFromBold(parts, pieces, k + 1);
    }
  }

  /** The `for` loop of `formatAnswer`: every odd piece is wrapped in
      bold tags, in place. */
  method BoldOddPieces(pieces: seq<string>) returns (parts: seq<string>)
    ensures |parts| == |pieces|
    ensures forall j :: 0 <= j < |pieces| ==> parts[j] == BoldPiece(pieces, j)
  {
    parts := pieces;
    var i := 1;
    while i < |parts|
      invariant i % 2 == 1 && 1 <= i <= |pieces| + 1
      invariant BoldedBelow(pieces, parts, i)
    {
      BoldStepKeeps(pieces, parts, i);
      parts := parts[i := Bold(parts[i])];
      i := i + 2;
    }
  }

  /** The loop's state: the pieces before `i` are done, the rest untouched. */
  predicate BoldedBelow(pieces: seq<string>, parts: seq<string>, i: nat) {
    |parts| == |pieces|
    && forall j :: 0 <= j < |pieces| ==> parts[j] == if j < i then BoldPiece(pieces, j) else pieces[j]
  }

  /** One pass of the loop wraps piece `i` and settles piece `i + 1`. */
  lemma BoldStepKeeps(pieces: seq<string>, parts: seq<string>, i: nat)
    requires i % 2 == 1 && i < |pieces| && BoldedBelow(pieces, parts, i)
    ensures BoldedBelow(pieces, parts[i := Bold(parts[i])], i + 2)
    ensures (i + 2) % 2 == 1
  {
    if i + 1 < |pieces| {
      assert BoldPiece(pieces, i + 1) == pieces[i + 1];
    }
  }

  /** `formatAnswer(answer)`. */
  method FormatAnswer(answer: Value) returns (r: Value)
    ensures r == Formatted(answer)
  {
    if !answer.Text? {
      return answer;
    }
    var text := ExpandTabs(answer.text);
    text := ParagraphPass(text);
    var answerSplit := Split(text, BoldMarker);
    var parts := BoldOddPieces(answerSplit);
    ConcatFromBold(parts, answerSplit, 0);
    r := Text(ConcatFrom(parts, 0));
  }

  // ---------------------------------------------------------------------
  // Properties of formatAnswer
  // ---------------------------------------------------------------------

  lemma {:induction false} ConcatLacksChar(pieces: seq<string>, c: char)
    requires forall k :: 0 <= k < |pieces| ==> c !in pieces[k]
    ensures c !in Concat(pieces)
    decreases |pieces|
  {
    if pieces != [] {
      ConcatLacksChar(pieces[1..], c);
    }
  }

  lemma {:induction false} BoldFromLacksChar(pieces: seq<string>, k: nat, c: char)
    requires k <= |pieces| && c !in "<b>/"
    requires forall j :: 0 <= j < |pieces| ==> c !in pieces[j]
    ensures c !in BoldFrom(pieces, k)
    decreases |pieces| - k
  {
    if k < |pieces| {
      BoldFromLacksChar(pieces, k + 1, c);
      if k % 2 == 1 {
        BoldLacksChar(pieces[k], c);
      }
    }
  }

  /** The bold tags add no character outside `<b>/`. */
  lemma BoldLacksChar(piece: string, c: char)
    requires c !in piece && c !in "<b>/"
    ensures c !in Bold(piece)
  {
    assert c != '<' && c != 'b' && c != '>' && c != '/' by {
      assert "<b>/"[0] == '<' && "<b>/"[1] == 'b' && "<b>/"[2] == '>' && "<b>/"[3] == '/';
    }
    assert c !in "<b>" && c !in "</b>";
  }

  /** The paragraph pass leaves no line break: every line is cut at the
      breaks, and the paragraph tags hold none. */
  lemma ParagraphPassHasNoNewline(s: string)
    ensures '\n' !in ParagraphPass(s)
  {
    var lines := Split(s, "\n");
    SplitPiecesLackSeparator(s, "\n");
    forall k | 0 <= k < |lines| ensures '\n' !in Paragraphs(lines)[k] {
      AbsentSeparatorChar(lines[k], '\n');
    }
    ConcatLacksChar(Paragraphs(lines), '\n');
  }

  /** A character the text does not hold, and that no tag holds, is not in
      the result of either pass. */
  lemma PassesKeepCharOut(s: string, c: char)
    requires c !in s && c !in "<p>/<b>"
    ensures c !in ParagraphPass(s)
    ensures c !in BoldPass(s)
  {
    var lines := Split(s, "\n");
    SplitPiecesLackChar(s, "\n", c);
    ConcatLacksChar(Paragraphs(lines), c);
    SplitPiecesLackChar(s, BoldMarker, c);
    BoldFromLacksChar(Split(s, BoldMarker), 0, c);
  }

  /** A formatted text answer holds no tab and no line break. */
  lemma FormattedHasNoTabOrNewline(s: string)
    ensures '\t' !in Formatted(Text(s)).text && '\n' !in Formatted(Text(s)).text
  {
    var expanded := ExpandTabs(s);
    ParagraphPassHasNoNewline(expanded);
    PassesKeepCharOut(ParagraphPass(expanded), '\n');
    PassesKeepCharOut(expanded, '\t');
    PassesKeepCharOut(ParagraphPass(expanded), '\t');
  }

  /** No two adjacent stars. */
  predicate NoDoubleStar(s: string) {
    forall k :: 0 <= k && k + 1 < |s| ==> !(s[k] == '*' && s[k + 1] == '*')
  }

  lemma PieceNoDoubleStar(s: string)
    requires !Contains(s, BoldMarker)
    ensures NoDoubleStar(s)
  {
    forall k | 0 <= k && k + 1 < |s| ensures !(s[k] == '*' && s[k + 1] == '*') {
      assert s[k..k + 2] == [s[k], s[k + 1]];
      assert OccursAt(s, [s[k], s[k + 1]], k);
    }
  }

  lemma ConcatNoDoubleStar(a: string, b: string)
    requires NoDoubleStar(a) && NoDoubleStar(b)
    requires a == [] || b == [] || a[|a| - 1] != '*' || b[0] != '*'
    ensures NoDoubleStar(a + b)
  {
    var s := a + b;
    forall k | 0 <= k && k + 1 < |s| ensures !(s[k] == '*' && s[k + 1] == '*') {
      if k + 1 < |a| {
        assert s[k] == a[k] && s[k + 1] == a[k + 1];
      } else if k >= |a| {
        assert s[k] == b[k - |a|] && s[k + 1] == b[k + 1 - |a|];
      }
    }
  }

  lemma {:induction false} BoldFromNoDoubleStar(pieces: seq<string>, k: nat)
    requires k <= |pieces|
    requires forall j :: 0 <= j < |pieces| ==> NoDoubleStar(pieces[j])
    ensures NoDoubleStar(BoldFrom(pieces, k))
    decreases |pieces| - k
  {
    if k < |pieces| {
      BoldFromNoDoubleStar(pieces, k + 1);
      if k + 1 < |pieces| && (k + 1) % 2 == 1 {
        BoldFromStartsWithTag(pieces, k + 1);
      }
      BoldFromStep(pieces, k);
    }
  }

  /** From an odd piece on, the text starts with the opening tag. */
  lemma BoldFromStartsWithTag(pieces: seq<string>, k: nat)
    requires k < |pieces| && k % 2 == 1
    ensures BoldFrom(pieces, k) != [] && BoldFrom(pieces, k)[0] == '<'
  {
    assert BoldFrom(pieces, k) == Bold(pieces[k]) + BoldFrom(pieces, k + 1);
  }

  /** One piece in front of a text without double stars adds none. */
  lemma BoldFromStep(pieces: seq<string>, k: nat)
    requires k < |pieces|
    requires NoDoubleStar(pieces[k]) && NoDoubleStar(BoldFrom(pieces, k + 1))
    requires k % 2 == 0 && k + 1 < |pieces| ==> BoldFrom(pieces, k + 1) != [] && BoldFrom(pieces, k + 1)[0] == '<'
    ensures NoDoubleStar(BoldFrom(pieces, k))
  {
    var p := BoldPiece(pieces, k);
    var rest := BoldFrom(pieces, k + 1);
    assert BoldFrom(pieces, k) == p + rest;
    if k % 2 == 1 {
      BoldNoDoubleStar(pieces[k]);
      ConcatNoDoubleStar(p, rest);
    } else {
      assert rest == [] || rest[0] == '<';
      ConcatNoDoubleStar(p, rest);
    }
  }

  /** The tags hold no star: a wrapped piece starts with `<`, ends with
      `>` and gains no double star. */
  lemma BoldNoDoubleStar(w: string)
    requires NoDoubleStar(w)
    ensures NoDoubleStar(Bold(w)) && Bold(w)[0] == '<' && Bold(w)[|Bold(w)| - 1] == '>'
  {
    ConcatNoDoubleStar("<b>", w);
    ConcatNoDoubleStar("<b>" + w, "</b>");
    var p := Bold(w);
    assert p == "<b>" + w + "</b>";
    assert p[|p| - 1] == '>';
  }

  /** The bold pass leaves no bold marker behind: every piece is cut at
      the markers, and where two pieces meet one of them is wrapped in
      tags. */
  lemma BoldPassRemovesMarkers(s: string)
    ensures NoDoubleStar(BoldPass(s))
  {
    var pieces := Split(s, BoldMarker);
    SplitPiecesLackSeparator(s, BoldMarker);
    forall j | 0 <= j < |pieces| ensures NoDoubleStar(pieces[j]) {
      PieceNoDoubleStar(pieces[j]);
    }
    BoldFromNoDoubleStar(pieces, 0);
  }

  /** Text without a star splits on the marker at a following marker. */
  lemma SplitAtMarker(a: string, rest: string)
    requires '*' !in a
    ensures Split(a + BoldMarker + rest, BoldMarker) == [a] + Split(rest, BoldMarker)
  {
    var s := a + BoldMarker + rest;
    assert OccursAt(s, BoldMarker, |a|) by { assert s[|a|..|a| + 2] == BoldMarker; }
    forall j: nat | j < |a| ensures !OccursAt(s, BoldMarker, j) {
      assert s[j] == a[j];
    }
    assert Find(s, BoldMarker) == Some(|a|);
    assert s[..|a|] == a;
    assert s[|a| + 2..] == rest;
  }

  /** Text without a star is not cut by the marker. */
  lemma SplitWithoutMarker(c: string)
    requires '*' !in c
    ensures Split(c, BoldMarker) == [c]
  {
    forall j: nat | j <= |c| ensures !OccursAt(c, BoldMarker, j) {
      if j + 2 <= |c| { assert c[j] in c; }
    }
    assert Find(c, BoldMarker) == None;
  }

  /** Text between a pair of markers comes out in bold: with no star in
      the parts, `a**b**c` is `a<b>b</b>c`. */
  lemma BoldPassWrapsPair(a: string, b: string, c: string)
    requires '*' !in a && '*' !in b && '*' !in c
    ensures BoldPass(a + BoldMarker + b + BoldMarker + c) == a + "<b>" + b + "</b>" + c
  {
    var rest := b + BoldMarker + c;
    assert a + BoldMarker + b + BoldMarker + c == a + BoldMarker + rest;
    SplitAtMarker(a, rest);
    SplitAtMarker(b, c);
    SplitWithoutMarker(c);
    assert Split(a + BoldMarker + rest, BoldMarker) == [a, b, c];
    BoldOfThree(a, b, c);
  }

  lemma BoldOfThree(a: string, b: string, c: string)
    ensures BoldFrom([a, b, c], 0) == a + "<b>" + b + "</b>" + c
  {
    var pieces := [a, b, c];
    assert BoldFrom(pieces, 3) == "";
    assert BoldFrom(pieces, 2) == c;
    assert BoldPiece(pieces, 1) == "<b>" + b + "</b>";
    assert BoldFrom(pieces, 1) == "<b>" + b + "</b>" + c;
    assert BoldFrom(pieces, 0) == a + BoldFrom(pieces, 1);
  }

  // ---------------------------------------------------------------------
  // ask and getHistory
  // ---------------------------------------------------------------------

  const DefaultId: string := "default-id"
  const NoResponse: string := "No response or incomplete response from server."
  const AskFailed: string := "Sorry, something went wrong asking the server."
  const HistoryFailed: string := "Sorry, something went wrong getting the history."

  /** A thread or user id after sanitising: empty, null or undefined
      becomes the default id. */
  function OrDefault(id: Option<string>): (r: string)
    ensures r != ""
    ensures id.Some? && id.value != "" ==> r == id.value
    ensures id.None? || id.value == "" ==> r == DefaultId
  {
    if id.None? || id.value == "" then DefaultId else id.value
  }

  /** What `askServer` resolves to (`data`: its `answer` and `thread_id`,
      when present), or its rejection. */
  datatype AskData = AskData(answer: Option<Value>, threadId: Option<string>)
  datatype ServerReply<T> = Resolved(data: Option<T>) | Rejected

  /** The JSON `ask` answers with. */
  datatype AskReply = AskReply(text: Value, id: string)

  /** The three arguments `askServer` is called with. */
  datatype AskCall = AskCall(question: Option<string>, threadId: string, userId: string)

  /** JavaScript truthiness of a JSON value: `null` (or a missing field),
      the empty string, `false` and zero are falsy; arrays and objects,
      even empty ones, are truthy. */
  predicate TruthyValue(v: Option<Value>) {
    v.Some? &&
    match v.value
    case Text(s) => s != ""
    case Bool(b) => b
    case Number(x) => x != 0.0
    case Structured(_) => true
  }

  predicate TruthyText(v: Option<string>) {
    v.Some? && v.value != ""
  }

  function AskCallOf(question: Option<string>, threadId: Option<string>, userId: Option<string>,
                     xss: Option<string> -> Option<string>): (c: AskCall)
    ensures c.question == xss(question)
    ensures c.threadId != "" && c.userId != ""
    ensures TruthyText(xss(threadId)) ==> c.threadId == xss(threadId).value
    ensures TruthyText(xss(userId)) ==> c.userId == xss(userId).value
  {
    AskCall(xss(question), OrDefault(xss(threadId)), OrDefault(xss(userId)))
  }

  /** The reply of `ask` for a server outcome. */
  function AskReplyOf(call: AskCall, server: ServerReply<AskData>): (r: AskReply)
    ensures r.id == call.threadId
            || (server.Resolved? && server.data.Some? && server.data.value.threadId == Some(r.id))
    ensures !r.text.Text? ==> server.Resolved? && server.data.Some? && server.data.value.answer == Some(r.text)
  {
    match server
    case Rejected => AskReply(Text(AskFailed), call.threadId)
    case Resolved(data) =>
      if data.None? || !TruthyValue(data.value.answer) || !TruthyText(data.value.threadId)
      then AskReply(Text(NoResponse), call.threadId)
      else AskReply(Formatted(data.value.answer.value), data.value.threadId.value)
  }

  /** `ask(req, res)`: the call made to the server and the reply sent. */
  method Ask(question: Option<string>, threadId: Option<string>, userId: Option<string>,
             xss: Option<string> -> Option<string>, server: ServerReply<AskData>)
    returns (call: AskCall, reply: AskReply)
    ensures call == AskCallOf(question, threadId, userId, xss)
    ensures reply == AskReplyOf(call, server)
  {
    var q := xss(question);
    var t := xss(threadId);
    var u := xss(userId);
    var thread := if t.None? || t.value == "" then DefaultId else t.value;
    var user := if u.None? || u.value == "" then DefaultId else u.value;
    call := AskCall(q, thread, user);
    match server {
      case Rejected =>
        reply := AskReply(Text(AskFailed), thread);
      case Resolved(data) =>
        if data.None? || !TruthyValue(data.value.answer) || !TruthyText(data.value.threadId) {
          reply := AskReply(Text(NoResponse), thread);
        } else {
          var text := FormatAnswer(data.value.answer.value);
          reply := AskReply(text, data.value.threadId.value);
        }
    }
  }

  /** How `ask` replies: the fixed error text on a rejection and the
      no-response text on incomplete data, both with the request's thread
      id; otherwise the formatted answer with the server's thread id. */
  lemma AskReplyCases(call: AskCall, server: ServerReply<AskData>)
    ensures server.Rejected? ==> AskReplyOf(call, server) == AskReply(Text(AskFailed), call.threadId)
    ensures server.Resolved? && (server.data.None? || !TruthyValue(server.data.value.answer)
                                 || !TruthyText(server.data.value.threadId)) ==>
              AskReplyOf(call, server) == AskReply(Text(NoResponse), call.threadId)
    ensures server.Resolved? && server.data.Some? && TruthyValue(server.data.value.answer)
            && TruthyText(server.data.value.threadId) ==>
              AskReplyOf(call, server).id == server.data.value.threadId.value
              && AskReplyOf(call, server).text == Formatted(server.data.value.answer.value)
  {
  }

  /** What the history server resolves to: its `text` field and the whole
      object as sent. */
  datatype HistoryData = HistoryData(text: Option<string>, json: string)

  /** The JSON `getHistory` answers with: the server's object, or a
      fallback text with no files. */
  datatype HistoryReply = PassedOn(data: HistoryData) | Fallback(text: string)

  /** The thread id `getHistory` asks for: `null` unless the request gave
      a non-empty one, which is then sanitised. */
  function HistoryThreadId(threadId: Option<string>, xss: Option<string> -> Option<string>): (r: Option<string>)
    ensures threadId.None? || threadId.value == "" ==> r.None?
    ensures threadId.Some? && threadId.value != "" ==> r == xss(threadId)
  {
    if threadId.Some? && threadId.value != "" then xss(threadId) else None
  }

  function HistoryReplyOf(server: ServerReply<HistoryData>): (r: HistoryReply)
    ensures r.PassedOn? <==> server.Resolved? && server.data.Some? && TruthyText(server.data.value.text)
    ensures r.PassedOn? ==> r.data == server.data.value
    ensures server.Rejected? ==> r == Fallback(HistoryFailed)
    ensures server.Resolved? && !r.PassedOn? ==> r == Fallback(NoResponse)
  {
    match server
    case Rejected => Fallback(HistoryFailed)
    case Resolved(data) =>
      if data.None? || !TruthyText(data.value.text) then Fallback(NoResponse) else PassedOn(data.value)
  }

  // ---------------------------------------------------------------------
  // Properties of ask and getHistory
  // ---------------------------------------------------------------------

  /** A resolved reply whose `answer` is falsy in JavaScript (the empty
      string, `false` or `0`) gets the no-response text, even with a
      thread id. An empty array is truthy and is passed on as it is. */
  lemma FalsyAnswersGetNoResponse(call: AskCall, t: string)
    requires t != ""
    ensures forall a :: a in {Text(""), Bool(false), Number(0.0)} ==>
              AskReplyOf(call, Resolved(Some(AskData(Some(a), Some(t))))) == AskReply(Text(NoResponse), call.threadId)
    ensures AskReplyOf(call, Resolved(Some(AskData(Some(Structured("[]")), Some(t))))) == AskReply(Structured("[]"), t)
  {
  }

  /** Every reply of `ask` carries an id, never an empty one: the
      sanitised thread id or its default, or the server's thread id. */
  lemma AskReplyHasId(question: Option<string>, threadId: Option<string>, userId: Option<string>,
                      xss: Option<string> -> Option<string>, server: ServerReply<AskData>)
    ensures AskReplyOf(AskCallOf(question, threadId, userId, xss), server).id != ""
  {
  }
}
