/** The chat assistant: the message log, the offline keyword replies and the backend round trip. */
module Chat {
  import opened Wrappers
  import opened Text

  datatype Role = UserRole | AssistantRole

  /** An article recommended inside a reply. */
  datatype ArticleRef = ArticleRef(id: int, title: string, category: string, readTime: string)

  /** A clinic recommended inside a reply. */
  datatype ClinicRef = ClinicRef(
    id: int, name: string, location: string, rating: real, acceptingNew: bool,
    specialties: seq<string>, insuranceAccepted: seq<string>)

  /** One entry of the log; a user message has no recommendations, shown as empty lists. */
  datatype Message = Message(
    role: Role, content: string, timestamp: string, articles: seq<ArticleRef>, clinics: seq<ClinicRef>)

  /** What `generateMockResponse` returns. */
  datatype Reply = Reply(response: string, articles: seq<ArticleRef>, clinics: seq<ClinicRef>)

  const GreetingText := "Hello! I'm your mental health assistant. How can I help you today?"

  const DepressionReply := Reply(
    "It sounds like you're going through a difficult time with depression. Depression is a common and serious medical illness that negatively affects how you feel, the way you think and how you act. Fortunately, it is also treatable. Here are some resources that might help.",
    [ArticleRef(1, "Understanding Depression", "Mental Health", "5 min"),
     ArticleRef(2, "Effective Treatments for Depression", "Therapy", "8 min")],
    [ClinicRef(1, "Mental Health Center", "123 Wellness Ave", 4.8, true,
       ["Depression", "Anxiety", "PTSD"], ["Aetna", "BlueCross", "United Healthcare"])])

  const AnxietyReply := Reply(
    "I understand that anxiety can be overwhelming. Anxiety disorders are characterized by feelings of worry, anxiety, or fear that are strong enough to interfere with one's daily activities. Here are some resources that might help.",
    [ArticleRef(3, "Managing Anxiety Day by Day", "Self-Help", "6 min")],
    [ClinicRef(2, "Anxiety Support Clinic", "456 Calm Street", 4.6, true,
       ["Anxiety", "Panic Disorder", "Social Anxiety"], ["Aetna", "Cigna", "Medicare"])])

  const StressReply := Reply(
    "Stress is your body's way of responding to any kind of demand or threat. When you have healthy coping mechanisms, stress doesn't have to be negative. Here are some resources to help manage stress.",
    [ArticleRef(4, "Stress Management Techniques", "Wellness", "4 min")],
    [])

  const DefaultReply := Reply(
    "Thank you for sharing. I'm here to support you with mental health information and resources. Would you like to explore specific topics like anxiety, depression, stress management, or finding professional help?",
    [], [])

  /** The text a successful backend reply falls back to when it carries no response. */
  const EmptyBackendText := "I received your message but couldn't generate a proper response."

  /** The offline reply: the first keyword, in the order depression, anxiety, stress,
      that occurs in the lower-cased input picks the canned reply. */
  function MockResponse(input: string): (r: Reply)
    ensures Includes(Lower(input), "depression") ==> r == DepressionReply
    ensures !Includes(Lower(input), "depression") && Includes(Lower(input), "anxiety") ==> r == AnxietyReply
    ensures (!Includes(Lower(input), "depression") && !Includes(Lower(input), "anxiety")
             && Includes(Lower(input), "stress")) ==> r == StressReply
  {
    var t := Lower(input);
    if Includes(t, "depression") then DepressionReply
    else if Includes(t, "anxiety") then AnxietyReply
    else if Includes(t, "stress") then StressReply
    else DefaultReply
  }

  /** The keyword test ignores ASCII case: lower-casing the input first changes no reply. */
  lemma MockResponseIgnoresCase(input: string)
    ensures MockResponse(Lower(input)) == MockResponse(input)
  {
    LowerIdempotent(input);
  }

  /** The canned replies are the only ones with recommendations; the default reply is given
      exactly when none of the three keywords occurs. */
  lemma MockResponseShape(input: string)
    ensures var r := MockResponse(input);
      && |r.articles| <= 2 && |r.clinics| <= 1
      && (|r.clinics| > 0 ==> |r.articles| > 0)
      && (r == DefaultReply <==>
            !Includes(Lower(input), "depression") && !Includes(Lower(input), "anxiety")
            && !Includes(Lower(input), "stress"))
      && (r == DefaultReply <==> r.articles == [])
  {
  }

  /** A recommended clinic always lists, among its specialties, the keyword that chose it. */
  lemma ClinicMatchesKeyword(input: string)
    ensures forall c :: c in MockResponse(input).clinics ==>
              exists s :: s in c.specialties && Includes(Lower(input), Lower(s))
  {
    var t := Lower(input);
    assert Lower("Depression") == "depression";
    assert Lower("Anxiety") == "anxiety";
    if Includes(t, "depression") {
      assert "Depression" in DepressionReply.clinics[0].specialties;
    } else if Includes(t, "anxiety") {
      assert "Anxiety" in AnxietyReply.clinics[0].specialties;
    }
  }

  /** The role/content pairs sent to the backend as `chat_history`. */
  function ChatHistory(ms: seq<Message>): (r: seq<(Role, string)>)
    ensures |r| == |ms|
    ensures forall i :: 0 <= i < |ms| ==> r[i] == (ms[i].role, ms[i].content)
  {
    seq(|ms|, i requires 0 <= i < |ms| => (ms[i].role, ms[i].content))
  }

  /** The assistant message added when the backend call throws: the error text, with the
      offline reply's recommendations for the same input. */
  function FallbackMessage(query: string, errorMessage: string, now: string): (m: Message)
    ensures m.role == AssistantRole && m.timestamp == now
    ensures m.articles == MockResponse(query).articles && m.clinics == MockResponse(query).clinics
    ensures m.content == "I'm having trouble connecting to my knowledge base right now. Error: "
                         + errorMessage + ". I'll provide some general information instead."
  {
    var mock := MockResponse(query);
    Message(AssistantRole,
      "I'm having trouble connecting to my knowledge base right now. Error: " + errorMessage
      + ". I'll provide some general information instead.", now, mock.articles, mock.clinics)
  }

  /** The role each position of the log must have: the greeting and replies at even positions,
      the user's messages at odd ones. */
  function RoleAt(i: nat): Role
  {
    if i % 2 == 0 then AssistantRole else UserRole
  }

  predicate Alternates(ms: seq<Message>)
  {
    forall i :: 0 <= i < |ms| ==> ms[i].role == RoleAt(i)
  }

  /** Appending a message of the role due next keeps the log alternating. */
  lemma AppendAlternates(ms: seq<Message>, m: Message)
    requires Alternates(ms) && m.role == RoleAt(|ms|)
    ensures Alternates(ms + [m])
  {
    forall i | 0 <= i < |ms| + 1 ensures (ms + [m])[i].role == RoleAt(i) {
      if i < |ms| {
        assert (ms + [m])[i] == ms[i];
      }
    }
  }

  /** A reply being waited for: the offline timer, or a backend request carrying the query and
      the history as it stood before the user's message was added. */
  datatype Pending = MockTimer(query: string) | BackendCall(query: string, history: seq<(Role, string)>)

  /** The chat panel's state. */
  class ChatPanel {
    var messages: seq<Message>
    var input: string
    var isLoading: bool
    var useMockData: bool
    var pending: Option<Pending>

    /** The log opens with the greeting and then alternates user, assistant; a reply is awaited
        exactly while loading, and then the last message is the question it answers. */
    predicate Valid()
      reads this
    {
      && |messages| >= 1
      && messages[0].role == AssistantRole && messages[0].content == GreetingText
      && Alternates(messages)
      && (isLoading <==> pending.Some?)
      && (pending.Some? <==> |messages| % 2 == 0)
      && (pending.Some? ==> messages[|messages| - 1].content == pending.value.query)
    }

    constructor (now: string)
      ensures Valid()
      ensures messages == [Message(AssistantRole, GreetingText, now, [], [])]
      ensures input == "" && !isLoading && useMockData && pending == None
    {
      messages := [Message(AssistantRole, GreetingText, now, [], [])];
      input, isLoading, useMockData, pending := "", false, true, None;
    }

    /** Typing in the message box. */
    method SetInput(text: string)
      requires Valid()
      modifies this
      ensures Valid()
      ensures input == text
      ensures messages == old(messages) && isLoading == old(isLoading)
              && useMockData == old(useMockData) && pending == old(pending)
    {
      input := text;
    }

    /** `handleSubmit`: a blank input or a reply in flight changes nothing; otherwise the
        untrimmed input is logged as the user's message, the box is cleared and the reply is
        awaited from the mode chosen at this moment. */
    method Submit(now: string)
      requires Valid()
      modifies this
      ensures Valid()
      ensures useMockData == old(useMockData)
      ensures Trim(old(input)) == [] || old(isLoading) ==>
                messages == old(messages) && input == old(input)
                && isLoading == old(isLoading) && pending == old(pending)
      ensures Trim(old(input)) != [] && !old(isLoading) ==>
                && messages == old(messages) + [Message(UserRole, old(input), now, [], [])]
                && input == "" && isLoading
                && pending == Some(if old(useMockData) then MockTimer(old(input))
                                   else BackendCall(old(input), ChatHistory(old(messages))))
    {
      if Trim(input) != [] && !isLoading {
        var query := input;
        Ask(Message(UserRole, query, now, [], []),
            if useMockData then MockTimer(query) else BackendCall(query, ChatHistory(messages)));
      }
    }

    /** Logs the user's message, clears the box and starts waiting for the reply. */
    method Ask(m: Message, p: Pending)
      requires Valid() && pending.None? && m.role == UserRole && m.content == p.query
      modifies this
      ensures Valid()
      ensures messages == old(messages) + [m]
      ensures input == "" && isLoading && pending == Some(p) && useMockData == old(useMockData)
    {
      AppendAlternates(messages, m);
      messages := messages + [m];
      input := "";
      isLoading := true;
      pending := Some(p);
    }

    /** Appends the awaited assistant message and stops waiting. */
    method Answer(m: Message)
      requires Valid() && pending.Some? && m.role == AssistantRole
      modifies this
      ensures Valid()
      ensures messages == old(messages) + [m]
      ensures !isLoading && pending == None
      ensures input == old(input) && useMockData == old(useMockData)
    {
      AppendAlternates(messages, m);
      messages := messages + [m];
      isLoading := false;
      pending := None;
    }

    /** The offline timer fires: the canned reply for the logged question. */
    method MockTimerFires(now: string)
      requires Valid() && pending.Some? && pending.value.MockTimer?
      modifies this
      ensures Valid()
      ensures var reply := MockResponse(old(pending).value.query);
        messages == old(messages) + [Message(AssistantRole, reply.response, now, reply.articles, reply.clinics)]
      ensures !isLoading && pending == None
      ensures input == old(input) && useMockData == old(useMockData)
    {
      var reply := MockResponse(pending.value.query);
      Answer(Message(AssistantRole, reply.response, now, reply.articles, reply.clinics));
    }

    /** The backend answers: its response text (or the stock text when it has none) and its
        recommendation lists (empty when missing). */
    method BackendReplies(response: Option<string>, articles: Option<seq<ArticleRef>>,
                          clinics: Option<seq<ClinicRef>>, now: string)
      requires Valid() && pending.Some? && pending.value.BackendCall?
      modifies this
      ensures Valid()
      ensures var text := if response.Some? && response.value != "" then response.value else EmptyBackendText;
        messages == old(messages) + [Message(AssistantRole, text, now,
                                       if articles.Some? then articles.value else [],
                                       if clinics.Some? then clinics.value else [])]
      ensures !isLoading && pending == None
      ensures input == old(input) && useMockData == old(useMockData)
    {
      var text := if response.Some? && response.value != "" then response.value else EmptyBackendText;
      Answer(Message(AssistantRole, text, now,
        if articles.Some? then articles.value else [],
        if clinics.Some? then clinics.value else []));
    }

    /** The backend call fails (network error or a non-success status): the fallback message. */
    method BackendFails(errorMessage: string, now: string)
      requires Valid() && pending.Some? && pending.value.BackendCall?
      modifies this
      ensures Valid()
      ensures messages == old(messages) + [FallbackMessage(old(pending).value.query, errorMessage, now)]
      ensures !isLoading && pending == None
      ensures input == old(input) && useMockData == old(useMockData)
    {
      Answer(FallbackMessage(pending.value.query, errorMessage, now));
    }

    /** The mode toggle; a reply already awaited keeps the mode it was sent with. */
    method ToggleMockData()
      requires Valid()
      modifies this
      ensures Valid()
      ensures useMockData == !old(useMockData)
      ensures messages == old(messages) && input == old(input)
              && isLoading == old(isLoading) && pending == old(pending)
    {
      useMockData := !useMockData;
    }
  }
}
