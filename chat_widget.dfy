/**
 * The transcript state of components/ChatWidget.tsx: `messages`, `input` and `isThinking`,
 * and `handleSend` split at its `await` into a begin step and a completion step.
 */
module ChatWidget {
  import opened Strings
  import opened SheetTypes

  /** The model turn every transcript starts with. */
  const Greeting := "Xin chào! Tôi đã phân tích dữ liệu \"Vụ việc\". Tôi có thể giúp gì cho bạn? Bạn có thể yêu cầu tôi tóm tắt danh sách hoặc tìm thông tin cụ thể."

  /** The model turn recorded when the awaited send throws. */
  const ConnectionApology := "Xin lỗi, tôi gặp sự cố khi kết nối với AI."

  /** How the awaited `sendMessageToGemini` call ended: with a reply text, or by throwing. */
  datatype SendCompletion = Responded(text: string) | Failed

  /** Turns after the greeting alternate user, model, user, model, ... */
  predicate Alternates(messages: seq<ChatMessage>)
  {
    forall i | 1 <= i < |messages| :: messages[i].role == (if i % 2 == 1 then User else Model)
  }

  /** The model turn a completion appends. */
  function CompletionTurn(completion: SendCompletion): (turn: ChatMessage)
    ensures turn.role == Model
    ensures completion.Responded? ==> turn.text == completion.text
    ensures completion.Failed? ==> turn.text == ConnectionApology
  {
    match completion
    case Responded(text) => ChatMessage(Model, text)
    case Failed => ChatMessage(Model, ConnectionApology)
  }

  /** One mounted ChatWidget. */
  class ChatWidgetState {
    var messages: seq<ChatMessage>
    var input: string
    var isThinking: bool

    /**
     * The transcript opens with the greeting and then alternates; a send is outstanding
     * exactly when the last turn is the user's.
     */
    predicate Valid()
      reads this
    {
      && |messages| >= 1
      && messages[0] == ChatMessage(Model, Greeting)
      && Alternates(messages)
      && (isThinking <==> |messages| % 2 == 0)
    }

    /** The three `useState` initialisers. */
    constructor ()
      ensures messages == [ChatMessage(Model, Greeting)] && input == "" && !isThinking
      ensures Valid()
    {
      messages := [ChatMessage(Model, Greeting)];
      input := "";
      isThinking := false;
    }

    /** The input box's onChange. */
    method SetInput(text: string)
      requires Valid()
      modifies this
      ensures Valid()
      ensures input == text && messages == old(messages) && isThinking == old(isThinking)
    {
      input := text;
    }

    /**
     * `handleSend` up to its `await`. Nothing happens when the trimmed input is empty or
     * a send is outstanding; otherwise the trimmed text becomes a user turn, the input is
     * cleared and the widget starts thinking. `sent` is the text handed to the service.
     */
    method BeginSend() returns (accepted: bool, sent: string)
      requires Valid()
      modifies this
      ensures Valid()
      ensures accepted <==> Trim(old(input)) != "" && !old(isThinking)
      ensures !accepted ==>
        messages == old(messages) && input == old(input) && isThinking == old(isThinking)
      ensures accepted ==>
        && sent == Trim(old(input))
        && messages == old(messages) + [ChatMessage(User, sent)]
        && input == ""
        && isThinking
    {
      if Trim(input) == "" || isThinking {
        return false, "";
      }
      sent := Trim(input);
      input := "";
      messages := messages + [ChatMessage(User, sent)];
      isThinking := true;
      accepted := true;
    }

    /**
     * `handleSend` after its `await`: one model turn (the reply, or the apology when the
     * call threw) is appended and thinking stops. Only an accepted send completes.
     */
    method CompleteSend(completion: SendCompletion)
      requires Valid() && isThinking
      modifies this
      ensures Valid()
      ensures messages == old(messages) + [CompletionTurn(completion)]
      ensures !isThinking && input == old(input)
    {
      messages := messages + [CompletionTurn(completion)];
      isThinking := false;
    }
  }

  /** The guard in action: a second send issued before the first completes is refused. */
  method SendTwiceBeforeReply(widget: ChatWidgetState, first: string, second: string)
      returns (firstAccepted: bool, secondAccepted: bool)
    requires widget.Valid() && !widget.isThinking
    modifies widget
    ensures firstAccepted <==> Trim(first) != ""
    ensures firstAccepted ==> !secondAccepted
    ensures widget.Valid()
    ensures firstAccepted ==> widget.messages == old(widget.messages) + [ChatMessage(User, Trim(first))]
  {
    widget.SetInput(first);
    var sent;
    firstAccepted, sent := widget.BeginSend();
    widget.SetInput(second);
    secondAccepted, sent := widget.BeginSend();
  }
}
