/** `ChatViewModel`: the chat session's state and the operations the UI binds to. The
    service is reached through its results: the outcome of `answer` and of
    `upload_document` are inputs. */
module ViewModel {
  import opened Outcomes
  import opened Text
  import opened DataTypes

  datatype ChatMessage = ChatMessage(role: string, content: string, sources: seq<string>, confidence: real)

  /** What `send_message` returns when the service raises. */
  const InternalErrorMessage := ChatMessage("ai", "An internal error occurred.", [], 0.0)

  /** The service's `answer`, given the question, the caller's role and the flattened
      history; it returns a result or raises. */
  type AnswerService = (string, string, seq<string>) -> Attempt<CRAGResult>

  /** The service's `upload_document`, which returns `(success, message)` or raises. */
  type UploadService = string -> Attempt<(bool, string)>

  function UserMessage(input: string): ChatMessage {
    ChatMessage("user", input, [], 0.0)
  }

  function AiMessage(result: CRAGResult): ChatMessage {
    ChatMessage("ai", result.answer, result.sources, result.confidence)
  }

  /** The line of the flattened history that stands for a message. */
  function Line(m: ChatMessage): string {
    if m.role == "user" then "User: " + m.content else "AI: " + m.content
  }

  /** The flattened history of a transcript: one line per message, in order. */
  function Flatten(history: seq<ChatMessage>): (lines: seq<string>)
    ensures |lines| == |history|
    decreases |history|
  {
    if history == [] then [] else [Line(history[0])] + Flatten(history[1..])
  }

  lemma {:induction false} FlattenAt(history: seq<ChatMessage>, i: nat)
    requires i < |history|
    ensures Flatten(history)[i] == Line(history[i])
    decreases |history|
  {
    if i > 0 {
      FlattenAt(history[1..], i - 1);
    }
  }

  /** Flattening distributes over appending one message. */
  lemma {:induction false} FlattenAppend(history: seq<ChatMessage>, m: ChatMessage)
    ensures Flatten(history + [m]) == Flatten(history) + [Line(m)]
    decreases |history|
  {
    if history != [] {
      assert (history + [m])[1..] == history[1..] + [m];
      FlattenAppend(history[1..], m);
    } else {
      assert [m][1..] == [];
    }
  }

  class ChatViewModel {
    var chatHistory: seq<ChatMessage>
    var stringHistory: seq<string>
    var isProcessing: bool
    var statusMessage: string
    var currentRole: string

    /** The two histories are parallel: the string history is the flattened transcript. */
    ghost predicate Valid()
      reads this
    {
      stringHistory == Flatten(chatHistory)
    }

    constructor ()
      ensures Valid()
      ensures chatHistory == [] && stringHistory == []
      ensures !isProcessing && statusMessage == "Ready" && currentRole == "User"
    {
      chatHistory := [];
      isProcessing := false;
      statusMessage := "Ready";
      currentRole := "User";
      stringHistory := [];
    }

    method SetUserRole(role: string)
      requires Valid()
      modifies this
      ensures Valid()
      ensures currentRole == role && statusMessage == "Role switched to " + role
      ensures chatHistory == old(chatHistory) && stringHistory == old(stringHistory)
      ensures isProcessing == old(isProcessing)
    {
      currentRole := role;
      statusMessage := "Role switched to " + role;
    }

    /** `send_message`. Blank input is ignored. Otherwise the user turn is recorded before
        the service is asked, so the history the service sees already ends with the
        question; the AI turn is recorded only when the service returns. */
    method SendMessage(userInput: string, service: AnswerService) returns (reply: Option<ChatMessage>)
      requires Valid()
      modifies this
      ensures Valid()
      ensures currentRole == old(currentRole)
      ensures AllSpace(userInput) ==>
        && reply.None?
        && chatHistory == old(chatHistory) && stringHistory == old(stringHistory)
        && isProcessing == old(isProcessing) && statusMessage == old(statusMessage)
      ensures !AllSpace(userInput) ==>
        var asked := old(stringHistory) + ["User: " + userInput];
        && reply.Some? && !isProcessing
        && match service(userInput, old(currentRole), asked)
           case Returned(result) =>
             && reply.value == AiMessage(result)
             && chatHistory == old(chatHistory) + [UserMessage(userInput), AiMessage(result)]
             && stringHistory == asked + ["AI: " + result.answer]
             && statusMessage == "Ready"
           case Raised(e) =>
             && reply.value == InternalErrorMessage
             && chatHistory == old(chatHistory) + [UserMessage(userInput)]
             && stringHistory == asked
             && statusMessage == "Error: " + e
    {
      if Strip(userInput) == [] {
        return None;
      }
      isProcessing := true;
      statusMessage := "Thinking (" + currentRole + ")...";

      var userMsg := UserMessage(userInput);
      assert Line(userMsg) == "User: " + userInput;
      FlattenAppend(chatHistory, userMsg);
      chatHistory := chatHistory + [userMsg];
      stringHistory := stringHistory + ["User: " + userInput];

      var outcome := service(userInput, currentRole, stringHistory);
      match outcome {
        case Returned(result) =>
          var aiMsg := AiMessage(result);
          assert Line(aiMsg) == "AI: " + result.answer by {
            assert |aiMsg.role| != |"user"|;
          }
          FlattenAppend(chatHistory, aiMsg);
          chatHistory := chatHistory + [aiMsg];
          stringHistory := stringHistory + ["AI: " + result.answer];
          statusMessage := "Ready";
          isProcessing := false;
          reply := Some(aiMsg);
        case Raised(e) =>
          statusMessage := "Error: " + e;
          isProcessing := false;
          reply := Some(InternalErrorMessage);
      }
    }

    /** `upload_document`: the status shown afterwards is the service's message, or an
        upload error; `is_processing` ends false either way. */
    method UploadDocument(filePath: string, upload: UploadService) returns (status: string)
      requires Valid()
      modifies this
      ensures Valid()
      ensures !isProcessing && status == statusMessage
      ensures upload(filePath).Returned? ==> status == upload(filePath).value.1
      ensures upload(filePath).Raised? ==> status == "Upload Error: " + upload(filePath).message
      ensures chatHistory == old(chatHistory) && stringHistory == old(stringHistory)
      ensures currentRole == old(currentRole)
    {
      isProcessing := true;
      statusMessage := "Uploading...";
      match upload(filePath) {
        case Returned(outcome) =>
          statusMessage := outcome.1;
        case Raised(e) =>
          statusMessage := "Upload Error: " + e;
      }
      isProcessing := false;
      status := statusMessage;
    }

    method ClearHistory()
      requires Valid()
      modifies this
      ensures Valid()
      ensures chatHistory == [] && stringHistory == [] && statusMessage == "Memory cleared."
      ensures currentRole == old(currentRole) && isProcessing == old(isProcessing)
    {
      chatHistory := [];
      stringHistory := [];
      statusMessage := "Memory cleared.";
    }
  }
}
