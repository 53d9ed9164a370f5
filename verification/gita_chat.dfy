/** The Bhagavad Gita chat: the keyword classifier that picks a reply topic
    and the send rule that appends one question and one answer. The reply
    texts are represented by their topic. */
module GitaChat {
  import opened Wrappers
  import Text

  datatype Topic = Dharma | Karma | Detachment | Yoga | Surrender | Fear | Purpose
                 | Suffering | Work | Relationships | Death | General

  datatype Group = Group(topic: Topic, keywords: seq<string>)

  const DharmaGroup := Group(Dharma, ["dharma", "duty"])
  const KarmaGroup := Group(Karma, ["karma", "action"])

  /** The keyword groups in the order they are tested. */
  const Groups: seq<Group> := [
    DharmaGroup,
    KarmaGroup,
    Group(Detachment, ["detachment", "attachment"]),
    Group(Yoga, ["meditation", "yoga"]),
    Group(Surrender, ["surrender", "devotion", "bhakti"]),
    Group(Fear, ["fear", "anxiety", "worry"]),
    Group(Purpose, ["purpose", "meaning", "life"]),
    Group(Suffering, ["suffering", "pain", "difficulty"]),
    Group(Work, ["work", "job", "career"]),
    Group(Relationships, ["relationships", "family", "love"]),
    Group(Death, ["death", "afterlife", "rebirth"])
  ]

  /** Some keyword of the group occurs in the (lower-cased) message. */
  predicate Hits(message: string, g: Group) {
    exists k | 0 <= k < |g.keywords| :: Text.Contains(message, g.keywords[k])
  }

  /** The first group of `groups` the message hits, tested in order. */
  function FirstHit(message: string, groups: seq<Group>): Topic {
    if groups == [] then General
    else if Hits(message, groups[0]) then groups[0].topic
    else FirstHit(message, groups[1..])
  }

  /** The first hit is the topic of the earliest group hit; with no hit the
      answer is general. */
  lemma {:induction false} FirstHitIsEarliest(message: string, groups: seq<Group>)
    ensures (forall i :: 0 <= i < |groups| ==> !Hits(message, groups[i])) ==> FirstHit(message, groups) == General
    ensures forall i :: 0 <= i < |groups| && Hits(message, groups[i])
                        && (forall j :: 0 <= j < i ==> !Hits(message, groups[j])) ==>
                        FirstHit(message, groups) == groups[i].topic
    ensures FirstHit(message, groups) != General ==>
              exists i :: 0 <= i < |groups| && Hits(message, groups[i]) && FirstHit(message, groups) == groups[i].topic
  {
    if groups != [] {
      FirstHitIsEarliest(message, groups[1..]);
      assert forall i :: 1 <= i < |groups| ==> groups[i] == groups[1..][i - 1];
      if !Hits(message, groups[0]) && FirstHit(message, groups) != General {
        var i :| 0 <= i < |groups[1..]| && Hits(message, groups[1..][i]) && FirstHit(message, groups) == groups[1..][i].topic;
        assert Hits(message, groups[i + 1]);
      }
    }
  }

  /** When no group is about the general topic, the answer is general
      exactly when no group is hit. */
  lemma {:induction false} GeneralIffNoHit(message: string, groups: seq<Group>)
    requires forall i :: 0 <= i < |groups| ==> groups[i].topic != General
    ensures FirstHit(message, groups) == General <==> forall i :: 0 <= i < |groups| ==> !Hits(message, groups[i])
  {
    if groups != [] {
      GeneralIffNoHit(message, groups[1..]);
      assert forall i :: 1 <= i < |groups| ==> groups[i] == groups[1..][i - 1];
    }
  }

  /** `getGitaResponse`'s choice: the first keyword group found in the
      lower-cased message, or a general reply when none is. */
  function Classify(userMessage: string): Topic {
    FirstHit(Text.Lower(userMessage), Groups)
  }

  lemma GroupsAreTopical()
    ensures forall i :: 0 <= i < |Groups| ==> Groups[i].topic != General
  {
  }

  /** The reply is on the topic of the first group the lower-cased message
      hits; it is general exactly when no group is hit. */
  lemma ClassifyIsEarliest(userMessage: string)
    ensures forall i :: 0 <= i < |Groups| && Hits(Text.Lower(userMessage), Groups[i])
                        && (forall j :: 0 <= j < i ==> !Hits(Text.Lower(userMessage), Groups[j])) ==>
                        Classify(userMessage) == Groups[i].topic
    ensures Classify(userMessage) == General <==> forall i :: 0 <= i < |Groups| ==> !Hits(Text.Lower(userMessage), Groups[i])
  {
    FirstHitIsEarliest(Text.Lower(userMessage), Groups);
    GroupsAreTopical();
    GeneralIffNoHit(Text.Lower(userMessage), Groups);
  }

  /** A character the message lacks rules out every keyword holding it. */
  lemma MissingCharacter(s: string, sub: string, k: nat)
    requires k < |sub| && sub[k] !in s
    ensures !Text.Contains(s, sub)
  {
    forall i | 0 <= i <= |s|
      ensures !Text.OccursAt(s, sub, i)
    {
      if i + |sub| <= |s| {
        assert s[i..i + |sub|][k] == s[i + k];
        assert s[i + k] in s;
      }
    }
  }

  /** A message hitting the karma group and not the dharma group gets the
      karma reply, whatever else it holds (fear, for instance). */
  lemma KarmaBeforeLaterTopics(userMessage: string)
    requires Hits(Text.Lower(userMessage), KarmaGroup) && !Hits(Text.Lower(userMessage), DharmaGroup)
    ensures Classify(userMessage) == Karma
  {
    var m := Text.Lower(userMessage);
    assert Groups[0] == DharmaGroup;
    assert FirstHit(m, Groups) == FirstHit(m, Groups[1..]);
    assert Groups[1..][0] == KarmaGroup;
  }

  lemma SatisfactionHits()
    ensures Hits("satisfaction", KarmaGroup) && !Hits("satisfaction", DharmaGroup)
  {
    var m := "satisfaction";
    assert Text.OccursAt(m, "action", 6);
    assert KarmaGroup.keywords[1] == "action";
    MissingCharacter(m, "dharma", 0);
    MissingCharacter(m, "duty", 0);
  }

  /** "satisfaction" holds "action", so it is answered about karma. */
  lemma SatisfactionIsKarma()
    ensures Classify("satisfaction") == Karma
  {
    Text.LowerOfLower("satisfaction");
    SatisfactionHits();
    KarmaBeforeLaterTopics("satisfaction");
  }

  lemma KarmaAndFearHits()
    ensures Hits("karma and fear", KarmaGroup) && !Hits("karma and fear", DharmaGroup)
  {
    var m := "karma and fear";
    assert Text.OccursAt(m, "karma", 0);
    assert KarmaGroup.keywords[0] == "karma";
    MissingCharacter(m, "dharma", 1);
    MissingCharacter(m, "duty", 1);
  }

  /** A question about both karma and fear gets the karma reply. */
  lemma KarmaAndFearIsKarma()
    ensures Classify("karma and fear") == Karma
  {
    Text.LowerOfLower("karma and fear");
    KarmaAndFearHits();
    KarmaBeforeLaterTopics("karma and fear");
  }

  // ------------------------------------------------------------ sending

  datatype Sender = User | Bot

  /** A bot message's text: the reply on a topic, or the apology shown
      when answering fails. */
  datatype Body = Typed(text: string) | Answer(topic: Topic) | Apology

  datatype Message = Message(id: string, body: Body, sender: Sender)

  datatype Chat = Chat(messages: seq<Message>, input: string, loading: bool)

  /** `handleSendMessage`, once the reply has settled. `failed` stands for
      the reply throwing. `now` is the send instant and `replyAt` the
      instant the reply settles, at least the simulated one-second delay
      later. The question's id is the decimal send time; the answer's id is
      the decimal of one millisecond after the reply. */
  function SendMessage(c: Chat, failed: bool, now: nat, replyAt: nat): (r: Chat)
    requires now + 1000 <= replyAt
    ensures Text.IsBlank(c.input) || c.loading ==> r == c
    ensures !(Text.IsBlank(c.input) || c.loading) ==>
              && |r.messages| == |c.messages| + 2
              && r.messages[..|c.messages|] == c.messages
              && r.messages[|c.messages|] == Message(Text.NatToString(now), Typed(c.input), User)
              && r.messages[|c.messages| + 1] ==
                   Message(Text.NatToString(replyAt + 1), if failed then Apology else Answer(Classify(c.input)), Bot)
              && r.input == "" && !r.loading
  {
    if Text.IsBlank(c.input) || c.loading then c
    else
      var question := Message(Text.NatToString(now), Typed(c.input), User);
      var answer := Message(Text.NatToString(replyAt + 1), if failed then Apology else Answer(Classify(c.input)), Bot);
      Chat(c.messages + [question] + [answer], "", false)
  }

  /** The question and its answer never share an id: the answer's id reads
      back as a later instant than the question's. */
  lemma {:induction false} QuestionAndAnswerIdsDiffer(c: Chat, failed: bool, now: nat, replyAt: nat)
    requires now + 1000 <= replyAt
    requires !(Text.IsBlank(c.input) || c.loading)
    ensures var ms := SendMessage(c, failed, now, replyAt).messages;
            && Text.ParseInt(ms[|c.messages|].id) == Some(now)
            && Text.ParseInt(ms[|c.messages| + 1].id) == Some(replyAt + 1)
            && ms[|c.messages|].id != ms[|c.messages| + 1].id
  {
    Text.ParseIntOfNatToString(now);
    Text.ParseIntOfNatToString(replyAt + 1);
  }

  /** `handleKeyPress`: Enter without Shift sends; anything else does
      nothing. */
  function KeyPress(c: Chat, key: string, shift: bool, failed: bool, now: nat, replyAt: nat): (r: Chat)
    requires now + 1000 <= replyAt
    ensures key == "Enter" && !shift ==> r == SendMessage(c, failed, now, replyAt)
    ensures key != "Enter" || shift ==> r == c
  {
    if key == "Enter" && !shift then SendMessage(c, failed, now, replyAt) else c
  }

  /** Each accepted send adds exactly one question followed by one answer,
      so in a conversation built only by sending, users and the bot
      alternate after the greeting. */
  predicate Alternates(ms: seq<Message>) {
    |ms| % 2 == 1 && ms[0].sender == Bot
    && forall i :: 1 <= i < |ms| ==> ms[i].sender == (if i % 2 == 1 then User else Bot)
  }

  lemma SendKeepsAlternation(c: Chat, failed: bool, now: nat, replyAt: nat)
    requires now + 1000 <= replyAt
    requires Alternates(c.messages)
    ensures Alternates(SendMessage(c, failed, now, replyAt).messages)
  {
  }
}
