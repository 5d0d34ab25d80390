/** The AI support chat: a canned-reply companion that picks a response
    category from keywords in the user's message. */
module AISupport {
  import Ascii

  // ---------------------------------------------------------------------------
  // Substring search

  /** p occurs in s starting at index i. */
  predicate OccursAt(s: string, p: string, i: int) {
    0 <= i && i + |p| <= |s| && s[i..i + |p|] == p
  }

  predicate IsPrefix(p: string, s: string) {
    |p| <= |s| && s[..|p|] == p
  }

  /** An occurrence in the tail is an occurrence one place later in the whole. */
  lemma OccursShift(s: string, p: string)
    requires s != []
    ensures OccursAt(s, p, 0) <==> IsPrefix(p, s)
    ensures forall i :: 1 <= i ==> (OccursAt(s, p, i) <==> OccursAt(s[1..], p, i - 1))
  {
    forall i | 1 <= i
      ensures OccursAt(s, p, i) <==> OccursAt(s[1..], p, i - 1)
    {
      if i + |p| <= |s| {
        assert s[i..i + |p|] == s[1..][i - 1..i - 1 + |p|];
      }
    }
  }

  /** `s.includes(p)`: p occurs in s at some position. */
  function Contains(s: string, p: string): (b: bool)
    ensures b <==> exists i :: OccursAt(s, p, i)
    decreases |s|
  {
    if s == [] then
      assert p != [] ==> forall i :: !OccursAt(s, p, i);
      assert p == [] ==> OccursAt(s, p, 0);
      p == []
    else
      OccursShift(s, p);
      if IsPrefix(p, s) then
        true
      else
        if Contains(s[1..], p) then
          var i :| OccursAt(s[1..], p, i);
          assert OccursAt(s, p, i + 1);
          true
        else
          false
  }

  /** A word inside a longer word is found: occurrences survive extension on
      either side. */
  lemma ContainsInside(pre: string, p: string, post: string)
    ensures Contains(pre + p + post, p)
  {
    var s := pre + p + post;
    assert OccursAt(s, p, |pre|);
  }

  function ContainsAny(s: string, words: seq<string>): (b: bool)
    ensures b <==> exists w :: w in words && Contains(s, w)
  {
    if words == [] then false
    else if Contains(s, words[0]) then
      assert words[0] in words;
      true
    else if ContainsAny(s, words[1..]) then
      var w :| w in words[1..] && Contains(s, w);
      assert w in words;
      true
    else
      assert forall w :: w in words && w != words[0] ==> w in words[1..];
      false
  }

  // ---------------------------------------------------------------------------
  // Categories

  datatype Category = Greeting | Stressed | Sad | Happy | Anxious | General

  /** The keywords tested for each category, lower case. */
  function Keywords(c: Category): seq<string> {
    match c
    case Greeting => ["hello", "hi", "hey"]
    case Stressed => ["stress", "overwhelm"]
    case Sad => ["sad", "depress", "unhappy"]
    case Happy => ["happy", "good", "great"]
    case Anxious => ["anxi", "worry", "nervous"]
    case General => []
  }

  /** The position of a category in the order the tests are tried;
      General comes last, when no test fired. */
  function Rank(c: Category): nat {
    match c
    case Greeting => 0
    case Stressed => 1
    case Sad => 2
    case Happy => 3
    case Anxious => 4
    case General => 5
  }

  predicate Mentions(lower: string, c: Category) {
    ContainsAny(lower, Keywords(c))
  }

  /** The category of a message: the first category, in test order, one of
      whose keywords occurs in the lower-cased message, else General. */
  function Classify(message: string): (c: Category)
    ensures c != General ==> Mentions(Ascii.ToLower(message), c)
    ensures forall k :: Rank(k) < Rank(c) ==> !Mentions(Ascii.ToLower(message), k)
  {
    var lower := Ascii.ToLower(message);
    if Mentions(lower, Greeting) then Greeting
    else if Mentions(lower, Stressed) then Stressed
    else if Mentions(lower, Sad) then Sad
    else if Mentions(lower, Happy) then Happy
    else if Mentions(lower, Anxious) then Anxious
    else General
  }

  /** Case does not matter: a message and its lower-cased form get the same
      category. */
  lemma ClassifyIgnoresCase(message: string)
    ensures Classify(Ascii.ToLower(message)) == Classify(message)
  {
    Ascii.ToLowerIdempotent(message);
  }

  /** A greeting keyword wins over everything else in the message. */
  lemma GreetingWins(message: string)
    requires Mentions(Ascii.ToLower(message), Greeting)
    ensures Classify(message) == Greeting
  {
  }

  /** "unhappy" is a sad keyword that contains the happy keyword "happy"; the
      sad test comes first, so such a message is never classed as happy. */
  lemma UnhappyIsNeverHappy(message: string)
    requires Contains(Ascii.ToLower(message), "unhappy")
    ensures Rank(Classify(message)) <= Rank(Sad)
  {
    assert "unhappy" in Keywords(Sad);
  }

  /** Matching is by substring: "this" contains "hi" and so is a greeting. */
  lemma SubstringGreeting()
    ensures Classify("this") == Greeting
  {
    assert Ascii.ToLower("this") == "this";
    assert OccursAt("this", "hi", 1);
    assert "hi" in Keywords(Greeting);
  }

  // ---------------------------------------------------------------------------
  // Replies

  // The canned replies, one constant per line of text.
  const GreetingReply1: string := "Hello! I'm your AI mental wellness companion. How are you feeling today?"
  const GreetingReply2: string := "Hi there! I'm here to support your mental wellbeing. What's on your mind?"
  const GreetingReply3: string := "Welcome to AI Support. I'm here to listen and help. How are you doing today?"
  const StressedReply1: string := "I'm sorry to hear you're feeling stressed. Would you like to try a quick breathing exercise to help calm your mind?"
  const StressedReply2: string := "Stress can be challenging. Have you identified what might be triggering this feeling? Sometimes naming the source can help us address it."
  const StressedReply3: string := "When we're stressed, our body's fight-or-flight response activates. Let's try to activate your relaxation response instead. Would you like to try a simple grounding technique?"
  const SadReply1: string := "I'm sorry you're feeling sad. Remember that all emotions, including sadness, are valid and temporary. Would it help to talk about what's causing these feelings?"
  const SadReply2: string := "Sadness is a natural emotion that we all experience. Is there something specific that's contributing to how you're feeling right now?"
  const SadReply3: string := "I hear that you're feeling sad. Sometimes expressing creativity can help process emotions - have you tried journaling, drawing, or any other creative outlet recently?"
  const HappyReply1: string := "That's wonderful to hear! Positive emotions are worth celebrating. What's contributing to your happiness today?"
  const HappyReply2: string := "I'm glad you're feeling happy! Taking note of what brings you joy can help you recreate these positive feelings in the future."
  const HappyReply3: string := "That's great! Positive emotions can broaden our thinking and build our resilience. What activity or thought is bringing you this happiness?"
  const AnxiousReply1: string := "Anxiety can feel overwhelming. Remember that you're not alone, and these feelings won't last forever. Would you like to try a grounding exercise?"
  const AnxiousReply2: string := "I understand anxiety can be difficult. Sometimes focusing on what we can control, rather than what we can't, can help reduce anxious feelings."
  const AnxiousReply3: string := "When anxiety strikes, returning to our senses can help. Could we try the 5-4-3-2-1 technique? Name 5 things you see, 4 things you feel, 3 things you hear, 2 things you smell, and 1 thing you taste."
  const GeneralReply1: string := "Thank you for sharing that with me. How long have you been feeling this way?"
  const GeneralReply2: string := "I appreciate you opening up. Would you like to explore some strategies that might help with this situation?"
  const GeneralReply3: string := "I'm here to support you. Would it help to talk more about this, or would you prefer some practical suggestions?"
  const GeneralReply4: string := "That sounds challenging. Have you spoken with a mental health professional about what you're experiencing?"
  const GeneralReply5: string := "I'm listening. Sometimes just expressing our thoughts can help us process them better. Would you like to tell me more?"

  /** The text of the opening message, which is also the first greeting reply. */
  const Welcome: string := GreetingReply1
  const ErrorReply: string := "I'm sorry, I'm having trouble responding right now. Please try again later."

  function Responses(c: Category): (r: seq<string>)
    ensures |r| >= 3
  {
    match c
    case Greeting => [GreetingReply1, GreetingReply2, GreetingReply3]
    case Stressed => [StressedReply1, StressedReply2, StressedReply3]
    case Sad => [SadReply1, SadReply2, SadReply3]
    case Happy => [HappyReply1, HappyReply2, HappyReply3]
    case Anxious => [AnxiousReply1, AnxiousReply2, AnxiousReply3]
    case General => [GeneralReply1, GeneralReply2, GeneralReply3, GeneralReply4, GeneralReply5]
  }

  /** A response of the category; `pick` stands for the random draw and is
      taken modulo the list length. */
  function GetResponse(c: Category, pick: nat): (r: string)
    ensures r in Responses(c)
  {
    Responses(c)[pick % |Responses(c)|]
  }

  /** Every response of a category can be drawn. */
  lemma EveryResponseCanBeDrawn(c: Category, i: nat)
    requires i < |Responses(c)|
    ensures GetResponse(c, i) == Responses(c)[i]
  {
    var r := Responses(c);
    assert i % |r| == i;
  }

  // ---------------------------------------------------------------------------
  // The conversation

  /** The white space and line terminators `trim` removes. */
  predicate IsSpace(ch: char) {
    ch == ' ' || ch == '\t' || ch == '\n' || ch == '\r' || ch == '\U{B}' || ch == '\U{C}'
    || ch == '\U{A0}' || ch == '\U{1680}' || ('\U{2000}' <= ch <= '\U{200A}')
    || ch == '\U{2028}' || ch == '\U{2029}' || ch == '\U{202F}' || ch == '\U{205F}'
    || ch == '\U{3000}' || ch == '\U{FEFF}'
  }

  /** Nothing but spaces: what `trim` turns into the empty string. */
  predicate IsBlank(s: string) {
    forall i :: 0 <= i < |s| ==> IsSpace(s[i])
  }

  datatype Sender = User | Ai

  datatype Message = Message(text: string, sender: Sender)

  class Chat {
    var messages: seq<Message>
    var inputMessage: string
    var isTyping: bool

    /** The welcome message stays first. */
    ghost predicate Valid()
      reads this
    {
      |messages| >= 1 && messages[0] == Message(Welcome, Ai)
    }

    constructor ()
      ensures Valid() && messages == [Message(Welcome, Ai)] && inputMessage == [] && !isTyping
    {
      messages := [Message(Welcome, Ai)];
      inputMessage := [];
      isTyping := false;
    }

    method SetInput(text: string)
      modifies this
      ensures inputMessage == text && messages == old(messages) && isTyping == old(isTyping)
    {
      inputMessage := text;
    }

    /** Sends the typed message: a blank input does nothing; otherwise the
        user's message and then exactly one reply are appended, the reply being
        the error text when the responder fails. */
    method HandleSendMessage(pick: nat, failed: bool)
      requires Valid()
      modifies this
      ensures Valid()
      ensures IsBlank(old(inputMessage)) ==>
                messages == old(messages) && inputMessage == old(inputMessage) && isTyping == old(isTyping)
      ensures !IsBlank(old(inputMessage)) ==>
                messages == old(messages) + [Message(old(inputMessage), User),
                  Message(if failed then ErrorReply else GetResponse(Classify(old(inputMessage)), pick), Ai)]
                && inputMessage == [] && !isTyping
    {
      if IsBlank(inputMessage) {
        return;
      }
      var sent := inputMessage;
      messages := messages + [Message(sent, User)];
      inputMessage := [];
      isTyping := true;
      if !failed {
        var aiResponseText := GetResponse(Classify(sent), pick);
        messages := messages + [Message(aiResponseText, Ai)];
      } else {
        messages := messages + [Message(ErrorReply, Ai)];
      }
      isTyping := false;
    }
  }
}
