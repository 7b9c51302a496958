/** Pieces of later/Server/ChatDriver.py: the rendering of a chat history
    into the prompt text (`convert_chat_history_to_string`), the test that
    decides whether a question needs a vector search, and the fixed
    `bad_response` returned when the language model call fails.

    The language model chains are inputs: `invoke(b)` is what the chain
    called on branch `b` gives back. */
module ChatDriver {
  import opened Common

  /** A history entry, as `_process_chat_history` produces it. */
  type Entry = map<string, string>

  /** `entry.get(key, "")`. */
  function Get(entry: Entry, key: string): (v: string)
    ensures key !in entry ==> v == ""
    ensures key in entry ==> v == entry[key]
  {
    if key in entry then entry[key] else ""
  }

  /** The text one entry contributes. */
  function EntryText(entry: Entry): string {
    "Question: " + Get(entry, "question") + "\nAnswer: " + Get(entry, "answer") + "\n\n"
  }

  /** The text of a whole history: the entries' texts, in order. */
  function HistoryText(entries: seq<Entry>): (r: string)
    ensures |r| >= 21 * |entries|
    ensures r == "" <==> entries == []
    decreases |entries|
  {
    if entries == [] then "" else HistoryText(entries[..|entries| - 1]) + EntryText(entries[|entries| - 1])
  }

  /** `convert_chat_history_to_string(chat_history)`. */
  method ConvertChatHistoryToString(chatHistory: seq<Entry>) returns (text: string)
    ensures text == HistoryText(chatHistory)
  {
    text := "";
    var i := 0;
    while i < |chatHistory|
      invariant 0 <= i <= |chatHistory|
      invariant text == HistoryText(chatHistory[..i])
    {
      var entry := chatHistory[i];
      var question := Get(entry, "question");
      var answer := Get(entry, "answer");
      var block := "Question: " + question + "\nAnswer: " + answer + "\n\n";
      assert block == EntryText(entry);
      assert HistoryText(chatHistory[..i + 1]) == HistoryText(chatHistory[..i]) + EntryText(chatHistory[i]) by {
        assert chatHistory[..i + 1][..i] == chatHistory[..i];
      }
      text := text + block;
      i := i + 1;
    }
    assert chatHistory[..i] == chatHistory;
  }

  /** An empty history renders as the empty text, and a one-entry history
      as exactly that entry's block, missing fields as empty strings. */
  lemma EmptyAndSingle(entry: Entry)
    ensures HistoryText([]) == ""
    ensures HistoryText([entry]) ==
              "Question: " + (if "question" in entry then entry["question"] else "")
              + "\nAnswer: " + (if "answer" in entry then entry["answer"] else "") + "\n\n"
  {
    assert [entry][..0] == [];
  }

  lemma LastOfAppend(a: seq<Entry>, b: seq<Entry>)
    requires b != []
    ensures (a + b)[..|a + b| - 1] == a + b[..|b| - 1]
    ensures (a + b)[|a + b| - 1] == b[|b| - 1]
  {
  }

  /** Rendering distributes over concatenation. */
  lemma {:induction false} HistoryTextAppend(a: seq<Entry>, b: seq<Entry>)
    ensures HistoryText(a + b) == HistoryText(a) + HistoryText(b)
    decreases |b|
  {
    if b == [] {
      assert a + b == a;
    } else {
      var front := b[..|b| - 1];
      var last := b[|b| - 1];
      LastOfAppend(a, b);
      calc {
        HistoryText(a + b);
        HistoryText(a + front) + EntryText(last);
        { HistoryTextAppend(a, front); }
        HistoryText(a) + HistoryText(front) + EntryText(last);
      }
    }
  }

  /** The question and answer texts of a history, counted together. */
  function FieldsLength(entries: seq<Entry>): nat
    decreases |entries|
  {
    if entries == [] then 0
    else FieldsLength(entries[..|entries| - 1])
         + |Get(entries[|entries| - 1], "question")| + |Get(entries[|entries| - 1], "answer")|
  }

  /** The length of the text is exact: each entry adds its 21-character
      frame ("Question: ", "\nAnswer: " and "\n\n") and its two field
      texts, nothing else. */
  lemma {:induction false} HistoryTextLength(entries: seq<Entry>)
    ensures |HistoryText(entries)| == 21 * |entries| + FieldsLength(entries)
    ensures |HistoryText(entries)| >= 21 * |entries|
    decreases |entries|
  {
    if entries != [] {
      HistoryTextLength(entries[..|entries| - 1]);
    }
  }

  // ---------------------------------------------------------------------
  // The needs-context test
  // ---------------------------------------------------------------------

  /** The characters `\w` matches, restricted to ASCII. */
  predicate WordChar(c: char) {
    ('a' <= c <= 'z') || ('A' <= c <= 'Z') || ('0' <= c <= '9') || c == '_'
  }

  /** `word` occurs at `i` with a word boundary on both sides, as
      `\bword\b` requires of a word that starts and ends with a word
      character. */
  predicate WholeWordAt(s: string, word: string, i: nat) {
    OccursAt(s, word, i)
    && (i == 0 || !WordChar(s[i - 1]))
    && (i + |word| == |s| || !WordChar(s[i + |word|]))
  }

  predicate ContainsWord(s: string, word: string) {
    exists i: nat | i <= |s| :: WholeWordAt(s, word, i)
  }

  /** `re.search(r'\bword\b', s)` from `from` on: the leftmost whole-word
      match. */
  function SearchWord(s: string, word: string, from: nat): (r: Option<nat>)
    ensures r.Some? ==> from <= r.value && WholeWordAt(s, word, r.value)
    ensures r.Some? ==> forall j: nat :: from <= j < r.value ==> !WholeWordAt(s, word, j)
    ensures r.None? ==> forall j: nat :: from <= j ==> !WholeWordAt(s, word, j)
    decreases |s| - from
  {
    if from + |word| > |s| then None
    else if WholeWordAt(s, word, from) then Some(from)
    else SearchWord(s, word, from + 1)
  }

  datatype Branch = NoContextNeeded | WithVectorSearch

  /** The branch `ask_llm` takes on the classifier's reply. */
  function BranchFor(classifierReply: string): (b: Branch)
    ensures b == NoContextNeeded ==>
              exists i: nat :: WholeWordAt(classifierReply, "doesn't", i) || WholeWordAt(classifierReply, "does not", i)
  {
    if SearchWord(classifierReply, "doesn't", 0).Some? || SearchWord(classifierReply, "does not", 0).Some?
    then NoContextNeeded
    else WithVectorSearch
  }

  /** The no-context branch is taken exactly when the reply holds
      `doesn't` or `does not` as whole words. */
  lemma NoContextIffWholeWord(classifierReply: string)
    ensures BranchFor(classifierReply) == NoContextNeeded <==>
              ContainsWord(classifierReply, "doesn't") || ContainsWord(classifierReply, "does not")
  {
    var d1 := SearchWord(classifierReply, "doesn't", 0);
    var d2 := SearchWord(classifierReply, "does not", 0);
    if d1.Some? {
      assert WholeWordAt(classifierReply, "doesn't", d1.value);
    }
    if d2.Some? {
      assert WholeWordAt(classifierReply, "does not", d2.value);
    }
  }

  /** The words must stand alone: a reply that starts with "doesn't" takes
      the no-context branch, one where the phrase is glued to other
      letters does not. */
  lemma WholeWordExamples()
    ensures BranchFor("doesn't need it") == NoContextNeeded
    ensures BranchFor("xdoesn'ty") == WithVectorSearch
  {
    assert WholeWordAt("doesn't need it", "doesn't", 0);
    var s := "xdoesn'ty";
    forall j: nat | j <= |s|
      ensures !WholeWordAt(s, "doesn't", j) && !WholeWordAt(s, "does not", j)
    {
      if j == 1 {
        assert WordChar(s[0]);
      }
    }
  }

  // ---------------------------------------------------------------------
  // Replies
  // ---------------------------------------------------------------------

  /** What one chain call gives back: it raised, returned `None`, or gave
      a reply with text content. */
  datatype ChainResponse = Raised(error: string) | NoResponse | Content(answer: string)

  /** The dictionary `ask_llm` returns: `text`, and `files` and
      `annotations` when present. */
  datatype LlmReply = LlmReply(text: string, files: Option<seq<string>>, annotations: Option<seq<string>>)

  /** `ChatDriver.bad_response`. */
  const BadResponse: LlmReply := LlmReply("Something went wrong.", Some([]), Some([]))

  /** How `ask_llm` ends once the classifier has replied: the chain is
      called on the branch the reply selects; an exception or a missing
      response gives `bad_response`, an answer gives `{"text": answer}`. */
  function AskLlmReply(classifierReply: string, invoke: Branch -> ChainResponse): (r: LlmReply)
    ensures invoke(BranchFor(classifierReply)).Content? ==>
              r == LlmReply(invoke(BranchFor(classifierReply)).answer, None, None)
  {
    match invoke(BranchFor(classifierReply))
    case Raised(_) => BadResponse
    case NoResponse => BadResponse
    case Content(answer) => LlmReply(answer, None, None)
  }

  /** The fixed fallback comes back exactly when the chain raised or
      returned nothing, whatever the error was; an answer never carries
      the fallback's extra keys. */
  lemma FailureGivesBadResponse(classifierReply: string, invoke: Branch -> ChainResponse)
    ensures AskLlmReply(classifierReply, invoke) == BadResponse <==> !invoke(BranchFor(classifierReply)).Content?
    ensures AskLlmReply(classifierReply, invoke).files.None? <==> invoke(BranchFor(classifierReply)).Content?
  {
  }
}
