/**
 * The admissions chatbot (app/chatbot/page.tsx): a conversation of user
 * questions and bot answers, an input box, the suggested questions that
 * fill it, and the reset button.
 */
module Chatbot {
  import opened Common
  import opened Services

  /** A chat bubble: its text, whose it is, and the server's time for an answer. */
  datatype Message = Message(text: string, isUser: bool, serverTime: Option<string>)

  /** The parsed body of an answer: `answer` and `text_time`. */
  datatype Answer = Answer(answer: string, textTime: Option<string>)

  /** The request to the chatbot service: its address and the question. */
  datatype Question = Question(url: string, question: string)

  const ConnectionError: string := "Xin lỗi, có lỗi kết nối. Vui lòng thử lại sau."

  /** The suggested questions, shown as buttons. */
  const DefaultQuestions: seq<string> := [
    "FPT có bao nhiều kì? và học phí mỗi kì là bao nhiêu?",
    "Những ngành học nào tại FPT University?",
    "Điều kiện tuyển sinh của FPT là gì?",
    "Cơ sở vật chất và môi trường học tập tại FPT như thế nào?",
    "Chính sách học bổng tại FPT University?",
    "Thời gian đào tạo của các ngành học tại FPT là bao lâu?",
    "FPT University có những cơ sở nào?",
    "Cách thức đăng ký tuyển sinh tại FPT như thế nào?",
    "Có những hoạt động ngoại khóa nào tại FPT?",
    "Cơ hội việc làm sau khi tốt nghiệp từ FPT như thế nào?"
  ]

  /** The send button is enabled, and `sendMessage` goes ahead, when nothing is loading and the text is not blank. */
  predicate CanSend(isLoading: bool, text: string) {
    !isLoading && !IsBlank(text)
  }

  /**
   * The bubble a finished request adds: the answer of an `ok` reply whose
   * body parses, and the connection error otherwise.
   */
  function BotMessage(reply: Reply<Option<Answer>>): (m: Message)
    ensures !m.isUser
    ensures reply.Reply? && reply.ok && reply.body.Some? ==>
              m.text == reply.body.value.answer && m.serverTime == reply.body.value.textTime
    ensures !(reply.Reply? && reply.ok && reply.body.Some?) ==> m.text == ConnectionError && m.serverTime.None?
  {
    if reply.Reply? && reply.ok && reply.body.Some? then Message(reply.body.value.answer, false, reply.body.value.textTime)
    else Message(ConnectionError, false, None)
  }

  class ChatbotPage {
    var messages: seq<Message>
    var inputValue: string
    var isLoading: bool
    /** Every question sent, in order. */
    var sent: seq<Question>

    /**
     * Every question in the conversation is non-blank, and while an answer
     * is awaited the last bubble is the user's question.
     */
    ghost predicate Valid()
      reads this
    {
      && (forall m :: m in messages && m.isUser ==> !IsBlank(m.text))
      && (isLoading ==> |messages| > 0 && messages[|messages| - 1].isUser)
    }

    constructor()
      ensures Valid()
      ensures messages == [] && inputValue == "" && !isLoading && sent == []
    {
      messages := [];
      inputValue := "";
      isLoading := false;
      sent := [];
    }

    /**
     * The first half of `sendMessage(text)`, up to the request: a blank text
     * or a pending answer does nothing; otherwise the question is added,
     * the input cleared, loading set and the question posted.
     */
    method SendMessage(text: string) returns (started: bool)
      requires Valid()
      modifies this
      ensures Valid()
      ensures started <==> CanSend(old(isLoading), text)
      ensures started ==> messages == old(messages) + [Message(text, true, None)] && inputValue == "" && isLoading
                          && sent == old(sent) + [Question(ChatbotService + "/api/chatbot", text)]
      ensures !started ==> messages == old(messages) && inputValue == old(inputValue) && isLoading == old(isLoading)
                           && sent == old(sent)
    {
      if IsBlank(text) || isLoading {
        return false;
      }
      messages := messages + [Message(text, true, None)];
      inputValue := "";
      isLoading := true;
      sent := sent + [Question(ChatbotService + "/api/chatbot", text)];
      return true;
    }

    /**
     * The second half of `sendMessage`, once the request settles: exactly
     * one bot bubble is added, and loading ends.
     */
    method CompleteSend(reply: Reply<Option<Answer>>)
      requires Valid()
      modifies this
      ensures Valid()
      ensures messages == old(messages) + [BotMessage(reply)] && !isLoading
      ensures inputValue == old(inputValue) && sent == old(sent)
    {
      messages := messages + [BotMessage(reply)];
      isLoading := false;
    }

    /** `handleInputSubmit`: send what is in the input box. */
    method HandleInputSubmit() returns (started: bool)
      requires Valid()
      modifies this
      ensures Valid()
      ensures started <==> CanSend(old(isLoading), old(inputValue))
      ensures started ==> messages == old(messages) + [Message(old(inputValue), true, None)] && inputValue == ""
                          && isLoading && sent == old(sent) + [Question(ChatbotService + "/api/chatbot", old(inputValue))]
      ensures !started ==> messages == old(messages) && inputValue == old(inputValue) && sent == old(sent)
                           && isLoading == old(isLoading)
    {
      started := SendMessage(inputValue);
    }

    /** `handleDefaultQuestion(question)`: a suggestion fills the input box without sending it. */
    method HandleDefaultQuestion(question: string)
      requires Valid()
      modifies this
      ensures Valid() && inputValue == question
      ensures messages == old(messages) && isLoading == old(isLoading) && sent == old(sent)
    {
      inputValue := question;
    }

    /** Typing in the input box, or its clear button with the empty text. */
    method SetInput(text: string)
      requires Valid()
      modifies this
      ensures Valid() && inputValue == text
      ensures messages == old(messages) && isLoading == old(isLoading) && sent == old(sent)
    {
      inputValue := text;
    }

    /** `refreshChat`: an empty conversation, an empty input, and no loading. */
    method RefreshChat()
      requires Valid()
      modifies this
      ensures Valid()
      ensures messages == [] && inputValue == "" && !isLoading && sent == old(sent)
    {
      messages := [];
      inputValue := "";
      isLoading := false;
    }
  }
}
