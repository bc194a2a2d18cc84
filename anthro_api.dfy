/** The AI tutor turn (utils/anthroApi.ts): the outgoing history, the choice
    between a flashcard tool call and a text reply, the mapping of generated
    questions and answers to flashcards, and the writes to the two stores.

    The language-model call, the history query and the two `save` calls are
    foreign code; they enter as parameters (`tutor`, `previous`, `setSaved`,
    `messageSaved`), and `new Date()` enters as `now`. */
module AnthroApi {
  import opened Wrappers
  import opened FlashcardModel

  const ToolName := "flashcard_generator"
  const UntitledTopic := "Untitled Topic"
  const GeneratedMessage :=
    "Flashcards generated successfully! Refresh the page to view them and click on flashcards to flip them."
  const UnableToProcess := "Unable to process the response."
  const RequestFailed := "Failed to process request"
  const UserRole := "user"
  const AssistantRole := "assistant"

  /** A property of a JSON object: no such key, a key holding `undefined` or
      `null`, or a key holding a value. The type guards test the key with `in`,
      so the first two differ there; everywhere else both are falsy. */
  datatype Prop<+T> = Absent | Nullish | Present(value: T) {
    function Value(): Option<T> {
      if Present? then Some(value) else None
    }
  }

  /** One generated card as the tool returns it. */
  datatype QuestionAnswer = QuestionAnswer(question: string, answer: string)

  /** The `input` object of a tool call. */
  datatype ToolInput = ToolInput(flashcards: Option<seq<QuestionAnswer>>, topic: Option<string>)

  /** A content block of the model's reply, tagged by its `type`: "text",
      "tool_use", or any other type. `Other(kind)` is meant only for a `kind`
      other than "text" and "tool_use"; those two are always `Text` and `ToolUse`. */
  datatype Block =
    | Text(text: Prop<string>)
    | ToolUse(name: string, input: Prop<ToolInput>)
    | Other(kind: string)

  /** A stored conversation turn as the history query selects it (role and content). */
  datatype StoredTurn = StoredTurn(role: string, content: Option<string>)

  /** A message of the request sent to the model. */
  datatype ApiMessage = ApiMessage(role: string, content: string)

  /** A stored conversation turn. */
  datatype Message = Message(conversationId: string, role: string, content: string, timestamp: int)

  /** What the tutor returns: the message, and the cards when the tool was used. */
  datatype ChatReply = ChatReply(message: string, flashcards: Option<seq<Flashcard>>)

  /** JavaScript's `s || fallback` on a string that may be missing: the empty
      string, `undefined` and `null` are falsy. */
  function Or(s: Option<string>, fallback: string): (r: string)
    ensures r == fallback || (s.Some? && r == s.value)
    ensures r == "" ==> fallback == ""
    ensures s.Some? && s.value != "" ==> r == s.value
  {
    if s.Some? && s.value != "" then s.value else fallback
  }

  /** `Array.prototype.find`, by index: the first element satisfying `p`. */
  function FindIndex<T>(s: seq<T>, p: T -> bool): (r: Option<nat>)
    ensures r.Some? ==> r.value < |s| && p(s[r.value])
    ensures r.Some? ==> forall j :: 0 <= j < r.value ==> !p(s[j])
    ensures r.None? ==> forall j :: 0 <= j < |s| ==> !p(s[j])
  {
    if |s| == 0 then None
    else if p(s[0]) then Some(0)
    else match FindIndex(s[1..], p)
      case None => None
      case Some(i) => Some(i + 1)
  }

  /** The type guard `isToolUseBlock`: type "tool_use" and an `input` key.
      Passing it narrows the block to a tool block; a tool block holding an
      input object always passes. */
  predicate IsToolUseBlock(b: Block)
    ensures IsToolUseBlock(b) ==> b.ToolUse?
    ensures b.ToolUse? && b.input.Present? ==> IsToolUseBlock(b)
  {
    b.ToolUse? && !b.input.Absent?
  }

  /** The type guard `isTextBlock`: type "text" and a `text` key. Passing it
      narrows the block to a text block; a text block holding a string always passes. */
  predicate IsTextBlock(b: Block)
    ensures IsTextBlock(b) ==> b.Text?
    ensures b.Text? && b.text.Present? ==> IsTextBlock(b)
  {
    b.Text? && !b.text.Absent?
  }

  /** The predicate the reply's tool block is searched with. A match is a
      tool block named "flashcard_generator", never a text block. */
  predicate IsGeneratorCall(b: Block)
    ensures IsGeneratorCall(b) ==> b.ToolUse? && b.name == ToolName && !IsTextBlock(b)
  {
    IsToolUseBlock(b) && b.name == ToolName
  }

  /** One prior turn as sent to the model; missing content becomes "". */
  function ToApiMessage(t: StoredTurn): ApiMessage {
    ApiMessage(t.role, Or(t.content, ""))
  }

  function ToApiMessages(turns: seq<StoredTurn>): (r: seq<ApiMessage>)
    ensures |r| == |turns|
    ensures forall i :: 0 <= i < |turns| ==>
      r[i].role == turns[i].role && r[i].content == turns[i].content.GetOr("")
  {
    if |turns| == 0 then [] else [ToApiMessage(turns[0])] + ToApiMessages(turns[1..])
  }

  /** The outgoing message list: the prior turns, then the user's prompt. */
  function BuildHistory(previous: seq<StoredTurn>, prompt: string): (r: seq<ApiMessage>)
    ensures |r| == |previous| + 1
    ensures r[|previous|] == ApiMessage(UserRole, prompt)
    ensures forall i :: 0 <= i < |previous| ==>
      r[i].role == previous[i].role && r[i].content == previous[i].content.GetOr("")
  {
    if |previous| != 0 then ToApiMessages(previous) + [ApiMessage(UserRole, prompt)]
    else [ApiMessage(UserRole, prompt)]
  }

  /** The card a generated question and answer become. */
  function ToFlashcard(qa: QuestionAnswer): Flashcard {
    Flashcard(qa.question, qa.answer)
  }

  function ToFlashcards(qas: seq<QuestionAnswer>): (r: seq<Flashcard>)
    ensures |r| == |qas|
    ensures forall i :: 0 <= i < |qas| ==>
      r[i].term == qas[i].question && r[i].definition == qas[i].answer
  {
    if |qas| == 0 then [] else [ToFlashcard(qas[0])] + ToFlashcards(qas[1..])
  }

  /** The input of the first generator call, when `toolUse?.input?.flashcards`
      is truthy (an empty array is truthy). */
  function CardsRequest(content: seq<Block>): (r: Option<ToolInput>)
    ensures r.Some? ==> r.value.flashcards.Some?
  {
    match FindIndex(content, IsGeneratorCall)
    case Some(i) =>
      if content[i].input.Present? && content[i].input.value.flashcards.Some?
      then Some(content[i].input.value) else None
    case None => None
  }

  /** The `text` of the first text block, if it has one. */
  function FirstText(content: seq<Block>): (r: Option<string>)
    ensures r.Some? ==>
      exists j :: 0 <= j < |content| && content[j] == Text(Present(r.value)) &&
        forall k :: 0 <= k < j ==> !IsTextBlock(content[k])
    ensures (forall j :: 0 <= j < |content| ==> !IsTextBlock(content[j])) ==> r.None?
  {
    match FindIndex(content, IsTextBlock)
    case Some(j) => content[j].text.Value()
    case None => None
  }

  /** What a reply leads to: a flashcard set to save, or a text answer. */
  datatype Decision = MakeCards(toSave: FlashcardSet) | Answer(text: string) {
    /** The message stored and returned for this decision. */
    function Reply(): string {
      match this
      case MakeCards(_) => GeneratedMessage
      case Answer(t) => t
    }

    /** The returned `flashcards` field (`null` unless cards were made). */
    function Returned(): Option<seq<Flashcard>> {
      match this
      case MakeCards(s) => Some(s.flashcards)
      case Answer(_) => None
    }
  }

  /** The classification of a reply's content blocks. */
  function Decide(content: seq<Block>): (d: Decision)
    ensures d.Reply() != ""
    ensures d.MakeCards? <==> CardsRequest(content).Some?
    ensures d.MakeCards? ==> d.toSave.topic != ""
    ensures d.MakeCards? ==>
      |d.toSave.flashcards| == |CardsRequest(content).value.flashcards.value|
  {
    match CardsRequest(content)
    case Some(input) =>
      MakeCards(FlashcardSet(Or(input.topic, UntitledTopic), ToFlashcards(input.flashcards.value)))
    case None => Answer(Or(FirstText(content), UnableToProcess))
  }

  /** Elements before the first match do not move it. */
  lemma {:induction false} FindIndexAfterPrefix<T>(pre: seq<T>, rest: seq<T>, p: T -> bool)
    requires forall j :: 0 <= j < |pre| ==> !p(pre[j])
    ensures FindIndex(pre + rest, p) ==
      match FindIndex(rest, p)
      case None => None
      case Some(i) => Some(|pre| + i)
  {
    if |pre| != 0 {
      assert (pre + rest)[1..] == pre[1..] + rest;
      FindIndexAfterPrefix(pre[1..], rest, p);
    } else {
      assert pre + rest == rest;
    }
  }

  /** Inserting an element that fails `p` shifts the first match past it. */
  lemma {:induction false} FindIndexSkip<T>(pre: seq<T>, x: T, post: seq<T>, p: T -> bool)
    requires !p(x)
    ensures match FindIndex(pre + post, p)
      case None => FindIndex(pre + [x] + post, p) == None
      case Some(i) => FindIndex(pre + [x] + post, p) == Some(if i < |pre| then i else i + 1)
  {
    if |pre| == 0 {
      assert pre + [x] + post == [x] + post;
      assert ([x] + post)[1..] == post;
      assert pre + post == post;
    } else {
      assert (pre + [x] + post)[1..] == pre[1..] + [x] + post;
      assert (pre + post)[1..] == pre[1..] + post;
      FindIndexSkip(pre[1..], x, post, p);
    }
  }

  /** The first generator call decides when it carries `flashcards`: it wins
      over every text block, even one that comes before it, and over later calls. */
  lemma ToolCallTakesPrecedence(pre: seq<Block>, input: ToolInput, post: seq<Block>)
    requires forall j :: 0 <= j < |pre| ==> !IsGeneratorCall(pre[j])
    requires input.flashcards.Some?
    ensures Decide(pre + [ToolUse(ToolName, Present(input))] + post) ==
      MakeCards(FlashcardSet(Or(input.topic, UntitledTopic), ToFlashcards(input.flashcards.value)))
  {
    var call := ToolUse(ToolName, Present(input));
    assert pre + [call] + post == pre + ([call] + post);
    assert FindIndex([call] + post, IsGeneratorCall) == Some(0);
    FindIndexAfterPrefix(pre, [call] + post, IsGeneratorCall);
    assert (pre + [call] + post)[|pre|] == call;
  }

  /** When the first generator call has no `input.flashcards`, the reply is
      answered with text, whatever later tool calls carry. */
  lemma FirstCallDecides(pre: seq<Block>, call: Block, post: seq<Block>)
    requires forall j :: 0 <= j < |pre| ==> !IsGeneratorCall(pre[j])
    requires IsGeneratorCall(call)
    requires !(call.input.Present? && call.input.value.flashcards.Some?)
    ensures Decide(pre + [call] + post) ==
      Answer(Or(FirstText(pre + [call] + post), UnableToProcess))
  {
    assert pre + [call] + post == pre + ([call] + post);
    assert FindIndex([call] + post, IsGeneratorCall) == Some(0);
    FindIndexAfterPrefix(pre, [call] + post, IsGeneratorCall);
    assert (pre + [call] + post)[|pre|] == call;
  }

  /** An empty `flashcards` array is truthy: an empty set is still made, saved
      and returned, with the confirmation message. */
  lemma EmptyCardListStillGenerates(topic: Option<string>, post: seq<Block>)
    ensures var d := Decide([ToolUse(ToolName, Present(ToolInput(Some([]), topic)))] + post);
      d.MakeCards? && d.toSave.flashcards == [] && d.Returned() == Some([])
      && d.Reply() == GeneratedMessage
  {
    var call := ToolUse(ToolName, Present(ToolInput(Some([]), topic)));
    assert [] + [call] + post == [call] + post;
    ToolCallTakesPrecedence([], ToolInput(Some([]), topic), post);
  }

  /** Inserting an element that fails `p` leaves the first match the same element. */
  lemma FindSkipSameElement<T>(pre: seq<T>, x: T, post: seq<T>, p: T -> bool)
    requires !p(x)
    ensures FindIndex(pre + [x] + post, p).Some? <==> FindIndex(pre + post, p).Some?
    ensures FindIndex(pre + post, p).Some? ==>
      (pre + [x] + post)[FindIndex(pre + [x] + post, p).value] ==
      (pre + post)[FindIndex(pre + post, p).value]
  {
    FindIndexSkip(pre, x, post, p);
    var with, without := pre + [x] + post, pre + post;
    match FindIndex(without, p)
    case None =>
    case Some(i) =>
      if i < |pre| {
        assert with[i] == pre[i] == without[i];
      } else {
        assert with[i + 1] == post[i - |pre|] == without[i];
      }
  }

  /** A block that is neither a generator call nor a text block has no effect. */
  lemma IgnoredBlockDropped(pre: seq<Block>, b: Block, post: seq<Block>)
    requires !IsGeneratorCall(b) && !IsTextBlock(b)
    ensures Decide(pre + [b] + post) == Decide(pre + post)
  {
    FindSkipSameElement(pre, b, post, IsGeneratorCall);
    assert CardsRequest(pre + [b] + post) == CardsRequest(pre + post);
    FindSkipSameElement(pre, b, post, IsTextBlock);
    assert FirstText(pre + [b] + post) == FirstText(pre + post);
  }

  /** Tool calls to another tool, and tool blocks without an `input` key, are ignored. */
  lemma OtherToolUseIgnored(pre: seq<Block>, name: string, input: Prop<ToolInput>, post: seq<Block>)
    requires name != ToolName || input.Absent?
    ensures Decide(pre + [ToolUse(name, input)] + post) == Decide(pre + post)
  {
    IgnoredBlockDropped(pre, ToolUse(name, input), post);
  }

  /** Without a generator call, the answer is the first text block's text, or
      the fallback when that text is empty, `null` or `undefined`; later text
      blocks are not consulted. */
  lemma AnswerIsFirstText(pre: seq<Block>, text: Prop<string>, post: seq<Block>)
    requires !text.Absent?
    requires forall j :: 0 <= j < |pre| ==> !IsGeneratorCall(pre[j]) && !IsTextBlock(pre[j])
    requires forall j :: 0 <= j < |post| ==> !IsGeneratorCall(post[j])
    ensures Decide(pre + [Text(text)] + post) ==
      Answer(if text.Present? && text.value != "" then text.value else UnableToProcess)
  {
    var t := Text(text);
    var content := pre + [t] + post;
    assert content == pre + ([t] + post);
    assert FindIndex([t] + post, IsTextBlock) == Some(0);
    FindIndexAfterPrefix(pre, [t] + post, IsTextBlock);
    assert content[|pre|] == t;
    forall j | 0 <= j < |content| ensures !IsGeneratorCall(content[j]) {
      if j > |pre| { assert content[j] == post[j - |pre| - 1]; }
    }
    assert FindIndex(content, IsGeneratorCall) == None;
  }

  /** With neither a generator call nor a text block, the fallback message is used. */
  lemma NoTextFallsBack(content: seq<Block>)
    requires forall j :: 0 <= j < |content| ==> !IsGeneratorCall(content[j]) && !IsTextBlock(content[j])
    ensures Decide(content) == Answer(UnableToProcess)
  {
    assert FindIndex(content, IsGeneratorCall) == None;
    assert FindIndex(content, IsTextBlock) == None;
  }

  /** The outgoing history is the converted prior turns followed by the prompt,
      in both branches of the ternary (also for an empty history). */
  lemma HistoryBranchesAgree(previous: seq<StoredTurn>, prompt: string)
    ensures BuildHistory(previous, prompt) == ToApiMessages(previous) + [ApiMessage(UserRole, prompt)]
  {
  }

  /** The two stores: flashcard sets and conversation messages. */
  class Database {
    var flashcardSets: seq<FlashcardSet>
    var messages: seq<Message>

    constructor ()
      ensures flashcardSets == [] && messages == []
    {
      flashcardSets := [];
      messages := [];
    }
  }

  /** The model's reply, or None when the history query or the call threw. */
  function TutorResponse(previous: Option<seq<StoredTurn>>, prompt: string,
                         tutor: seq<ApiMessage> -> Option<seq<Block>>): (r: Option<seq<Block>>)
    ensures previous.None? ==> r.None?
    ensures previous.Some? ==>
      r == tutor(ToApiMessages(previous.value) + [ApiMessage(UserRole, prompt)])
  {
    if previous.None? then None
    else
      HistoryBranchesAgree(previous.value, prompt);
      tutor(BuildHistory(previous.value, prompt))
  }

  /** `chatWithAiTutor`. `previous` is what the history query returned (None:
      it threw), `tutor` is the model call (None: it threw), and `setSaved` and
      `messageSaved` say whether each `save` succeeds. Any failure is rethrown
      as "Failed to process request"; a set saved before a failing message
      save stays stored. */
  method ChatWithAiTutor(db: Database, prompt: string, conversationId: string,
                         previous: Option<seq<StoredTurn>>,
                         tutor: seq<ApiMessage> -> Option<seq<Block>>,
                         setSaved: bool, messageSaved: bool, now: int)
    returns (r: Result<ChatReply>)
    modifies db
    ensures TutorResponse(previous, prompt, tutor).None? ==>
      r == Failure(RequestFailed) &&
      db.flashcardSets == old(db.flashcardSets) && db.messages == old(db.messages)
    ensures TutorResponse(previous, prompt, tutor).Some? ==>
      var d := Decide(TutorResponse(previous, prompt, tutor).value);
      var setStepOk := d.MakeCards? ==> setSaved;
      && db.flashcardSets ==
         old(db.flashcardSets) + (if d.MakeCards? && setSaved then [d.toSave] else [])
      && db.messages ==
         old(db.messages) +
         (if setStepOk && messageSaved
          then [Message(conversationId, AssistantRole, d.Reply(), now)] else [])
      && r == (if setStepOk && messageSaved
               then Success(ChatReply(d.Reply(), d.Returned()))
               else Failure(RequestFailed))
  {
    r := Failure(RequestFailed);
    if previous.None? {
      return;
    }
    var messages := BuildHistory(previous.value, prompt);
    var response := tutor(messages);
    if response.None? {
      return;
    }
    var content := response.value;

    var messageText := "";
    var flashcards: Option<seq<Flashcard>> := None;
    var toolUse := FindIndex(content, IsGeneratorCall);
    if toolUse.Some? && content[toolUse.value].input.Present?
       && content[toolUse.value].input.value.flashcards.Some? {
      var input := content[toolUse.value].input.value;
      flashcards := Some(ToFlashcards(input.flashcards.value));
      var newFlashcards := FlashcardSet(Or(input.topic, UntitledTopic), flashcards.value);
      if !setSaved {
        return;
      }
      db.flashcardSets := db.flashcardSets + [newFlashcards];
      messageText := GeneratedMessage;
    } else {
      var aiMessage := FindIndex(content, IsTextBlock);
      messageText := Or(if aiMessage.Some? then content[aiMessage.value].text.Value() else None,
                        UnableToProcess);
    }

    if !messageSaved {
      return;
    }
    db.messages := db.messages + [Message(conversationId, AssistantRole, messageText, now)];
    r := Success(ChatReply(messageText, flashcards));
  }
}
