/**
 * The bot's reply selection: canned phrases first, then every knowledge-base
 * condition named in the message, then a pending follow-up, then a
 * non-health fallback. The translator is a parameter and `random.choice`
 * is a nondeterministic pick from the list.
 */
module Bot {
  import opened Js
  import opened Strings
  import opened Api

  /** A phrase category: the keywords that select it and the replies it picks from. */
  datatype PhraseCategory = PhraseCategory(keywords: seq<string>, responses: seq<string>)

  const Greetings: PhraseCategory := PhraseCategory(
    ["hi", "hieee", "hello", "hey", "good morning", "good evening", "good afternoon", "what's up", "howdy"],
    ["Hello! How are you feeling today?",
     "Hi there! Tell me how your health is doing.",
     "Hey! How can I help you with your wellness?"])

  const Thanks: PhraseCategory := PhraseCategory(
    ["thank you", "thanks", "thx", "thank u", "ty", "much appreciated", "grateful", "thanks a lot", "thnx"],
    ["You're most welcome! \U{1F60A}", "Glad I could help!", "Take care and stay healthy!"])

  const Okay: PhraseCategory := PhraseCategory(
    ["ok", "okay", "fine", "alright"],
    ["Okay, got it!",
     "Alright, tell me more about how you feel.",
     "Sure! What would you like to discuss next?"])

  /** The categories in the order they are tried. */
  const Phrases: seq<PhraseCategory> := [Greetings, Thanks, Okay]

  /** Every category, and the fallback, has a reply to pick. */
  lemma RepliesOffered(i: nat)
    requires i < |Phrases|
    ensures Phrases[i].responses != [] && NonHealthResponses != []
  {
  }

  const NonHealthResponses: seq<string> := [
    "I can help you with health-related queries. Please tell me about your symptoms.",
    "Please ask me something related to your health or wellness.",
    "I'm designed to help with health concerns \U{2014} could you share how you're feeling?"]

  /** `LANG_NAME_TO_CODE.get(language.lower(), "en")`. */
  function LangCode(language: string): (code: string)
    ensures code == "en" || code == "hi"
    ensures code == "hi" <==> Lower(language) == "hindi"
  {
    var name := Lower(language);
    if name == "english" then "en" else if name == "hindi" then "hi" else "en"
  }

  /** `translate_text(text, dest)`: opaque, and total because failures return the text. */
  type Translator = (string, string) -> string

  /**
   * The message the rules look at: translated to English unless already
   * English, lower-cased and stripped. Lower-casing and stripping are the
   * ASCII ones of `Lower` and `Trim`, so Unicode spaces and non-ASCII
   * letters are kept as they are.
   */
  function EnglishMessage(message: string, code: string, translate: Translator): (m: string)
    ensures IsTrimmed(m) && IsLower(m)
    ensures code == "en" ==> m == Trim(Lower(message))
    ensures code != "en" ==> m == Trim(Lower(translate(message, "en")))
  {
    var english := if code != "en" then translate(message, "en") else message;
    var lowered := Lower(english);
    var m := Trim(lowered);
    TrimChars(lowered);
    assert forall i :: 0 <= i < |m| ==> m[i] in lowered;
    m
  }

  /** `any(word in message for word in keywords)`. */
  predicate MentionsAny(msg: string, keywords: seq<string>) {
    exists k :: k in keywords && Contains(msg, k)
  }

  /** The first category, in order, with a keyword in the message. */
  function FirstPhrase(msg: string): (r: Option<nat>)
    ensures r.Some? ==>
      && r.value < |Phrases|
      && MentionsAny(msg, Phrases[r.value].keywords)
      && forall j :: 0 <= j < r.value ==> !MentionsAny(msg, Phrases[j].keywords)
    ensures r.None? ==> forall j :: 0 <= j < |Phrases| ==> !MentionsAny(msg, Phrases[j].keywords)
  {
    if MentionsAny(msg, Greetings.keywords) then Some(0)
    else if MentionsAny(msg, Thanks.keywords) then Some(1)
    else if MentionsAny(msg, Okay.keywords) then Some(2)
    else None
  }

  /** `matched_conditions`: the keys that occur in the message, in file order. */
  function Matched(kb: KnowledgeBase, msg: string): (r: seq<string>)
    ensures |r| <= |kb|
    ensures forall i :: 0 <= i < |r| ==> Contains(msg, r[i])
    decreases |kb|
  {
    if kb == [] then []
    else
      var last := kb[|kb| - 1];
      Matched(kb[..|kb| - 1], msg) + (if Contains(msg, last.key) then [last.key] else [])
  }

  /** Every key that occurs in the message is matched. */
  lemma {:induction false} MatchedComplete(kb: KnowledgeBase, msg: string, i: nat)
    requires i < |kb| && Contains(msg, kb[i].key)
    ensures kb[i].key in Matched(kb, msg)
    decreases |kb|
  {
    if i < |kb| - 1 {
      MatchedComplete(kb[..|kb| - 1], msg, i);
    }
  }

  /** Only keys of the knowledge base are matched. */
  lemma {:induction false} MatchedKeys(kb: KnowledgeBase, msg: string)
    ensures forall i :: 0 <= i < |Matched(kb, msg)| ==> Matched(kb, msg)[i] in Keys(kb)
    decreases |kb|
  {
    if kb != [] {
      var init := kb[..|kb| - 1];
      MatchedKeys(init, msg);
      assert forall k :: k in Keys(init) ==> k in Keys(kb) by {
        assert forall j :: 0 <= j < |init| ==> Keys(init)[j] == Keys(kb)[j];
      }
      assert Keys(kb)[|kb| - 1] == kb[|kb| - 1].key;
    }
  }

  /** A single entry is matched exactly when its key occurs in the message. */
  lemma MatchedSingle(e: KbEntry, msg: string)
    ensures Matched([e], msg) == if Contains(msg, e.key) then [e.key] else []
  {
    assert [e][..0] == [];
  }

  /** The matches of consecutive parts of the file are those of each part, in file order. */
  lemma {:induction false} MatchedAppend(a: KnowledgeBase, b: KnowledgeBase, msg: string)
    ensures Matched(a + b, msg) == Matched(a, msg) + Matched(b, msg)
    decreases |b|
  {
    if b == [] {
      assert a + b == a;
    } else {
      var ab := a + b;
      assert ab[..|ab| - 1] == a + b[..|b| - 1];
      assert ab[|ab| - 1] == b[|b| - 1];
      MatchedAppend(a, b[..|b| - 1], msg);
    }
  }

  /** With no match, no key occurs in the message: the question branch's guard never holds. */
  lemma NoMatchMeansNoKey(kb: KnowledgeBase, msg: string)
    requires Matched(kb, msg) == []
    ensures forall i :: 0 <= i < |kb| ==> !Contains(msg, kb[i].key)
  {
    forall i | 0 <= i < |kb| && Contains(msg, kb[i].key)
      ensures false
    {
      MatchedComplete(kb, msg, i);
    }
  }

  const SectionIntro: string := "It seems like you might be experiencing "
  const AdviceIntro: string := "Here\U{2019}s some advice that may help:\n"

  /** `"- " + item + "\n"` for every advice item. */
  function Bullets(advice: seq<string>): string {
    if advice == [] then "" else "- " + advice[0] + "\n" + Bullets(advice[1..])
  }

  lemma {:induction false} BulletsSnoc(advice: seq<string>, a: string)
    ensures Bullets(advice + [a]) == Bullets(advice) + ("- " + a + "\n")
  {
    if advice == [] {
      assert advice + [a] == [a];
      assert [a][1..] == [];
    } else {
      assert (advice + [a])[1..] == advice[1..] + [a];
      BulletsSnoc(advice[1..], a);
    }
  }

  /** Split on newlines, the bullets are one "- item" line per advice item and a final empty piece. */
  lemma {:induction false} BulletsLines(advice: seq<string>)
    requires forall i :: 0 <= i < |advice| ==> '\n' !in advice[i]
    ensures Split(Bullets(advice), "\n") == Padded("- ", advice) + [""]
  {
    if advice == [] {
      assert Split("", "\n") == [""];
    } else {
      var p := "- " + advice[0];
      var rest := Bullets(advice[1..]);
      BulletsLines(advice[1..]);
      assert Bullets(advice) == p + ("\n" + rest);
      assert '\n' !in "- " && '\n' !in advice[0];
      assert '\n' !in p;
      SplitPrefix(p, "\n" + rest, '\n');
      SplitLeadingSeparator(rest, '\n');
      assert ['\n'] + rest == "\n" + rest;
      assert Split("\n" + rest, "\n") == [""] + Split(rest, "\n");
      assert p + "" == p;
      assert Padded("- ", advice) == [p] + Padded("- ", advice[1..]);
    }
  }

  /** One condition's section of the composed reply. */
  function Section(condition: string, advice: seq<string>): string {
    SectionIntro + Capitalize(condition) + ".\n" + AdviceIntro + Bullets(advice)
  }

  /** The sections for the matched conditions that look up to an entry. */
  function Sections(kb: KnowledgeBase, conditions: seq<string>): (r: seq<string>)
    ensures |r| <= |conditions|
    decreases |conditions|
  {
    if conditions == [] then []
    else
      var last := conditions[|conditions| - 1];
      Sections(kb, conditions[..|conditions| - 1]) +
        (match Lookup(kb, last)
         case Some(info) => [Section(last, info.advice)]
         case None => [])
  }

  /** Conditions that are all keys of the knowledge base give one section each, in their order. */
  lemma {:induction false} SectionsOfKeys(kb: KnowledgeBase, conditions: seq<string>)
    requires forall i :: 0 <= i < |conditions| ==> conditions[i] in Keys(kb)
    ensures |Sections(kb, conditions)| == |conditions|
    ensures forall i :: 0 <= i < |conditions| ==>
      Lookup(kb, conditions[i]).Some? &&
      Sections(kb, conditions)[i] == Section(conditions[i], Lookup(kb, conditions[i]).value.advice)
    decreases |conditions|
  {
    if conditions != [] {
      var init := conditions[..|conditions| - 1];
      var last := conditions[|conditions| - 1];
      assert forall i :: 0 <= i < |init| ==> init[i] == conditions[i];
      SectionsOfKeys(kb, init);
      var info := Lookup(kb, last).value;
      var r := Sections(kb, conditions);
      assert r == Sections(kb, init) + [Section(last, info.advice)];
      forall i | 0 <= i < |conditions|
        ensures r[i] == Section(conditions[i], Lookup(kb, conditions[i]).value.advice)
      {
        if i < |init| {
          assert r[i] == Sections(kb, init)[i];
        }
      }
    }
  }

  /** Every matched condition contributes exactly its own section, in file order. */
  lemma MatchedSections(kb: KnowledgeBase, msg: string)
    ensures |Sections(kb, Matched(kb, msg))| == |Matched(kb, msg)|
    ensures forall i :: 0 <= i < |Matched(kb, msg)| ==>
      Lookup(kb, Matched(kb, msg)[i]).Some? &&
      Sections(kb, Matched(kb, msg))[i] ==
        Section(Matched(kb, msg)[i], Lookup(kb, Matched(kb, msg)[i]).value.advice)
  {
    MatchedKeys(kb, msg);
    SectionsOfKeys(kb, Matched(kb, msg));
  }

  /** The composed reply: the sections joined by blank-line separators, then stripped. */
  function ComposedReply(kb: KnowledgeBase, conditions: seq<string>): string {
    Trim(Join(Sections(kb, conditions), "\n"))
  }

  /** The follow-up reply for a remembered symptom. */
  function FollowUp(symptom: string, advice: seq<string>): string {
    SectionIntro + symptom + ". " + AdviceIntro + Join(Padded("- ", advice), "\n")
  }

  /** What the rules decide: pick one of some replies, or say one text (and maybe forget the user's symptom). */
  datatype Decision = Pick(choices: seq<string>) | Say(text: string, forget: bool)

  /** The rules in their order, on the already normalised message. */
  function Decide(msg: string, kb: KnowledgeBase, context: map<int, string>, userId: int): Decision {
    var phrase := FirstPhrase(msg);
    if phrase.Some? then Pick(Phrases[phrase.value].responses)
    else
      var conditions := Matched(kb, msg);
      if conditions != [] then Say(ComposedReply(kb, conditions), false)
      else if userId in context && context[userId] != "" && Lookup(kb, context[userId]).Some? then
        Say(FollowUp(context[userId], Lookup(kb, context[userId]).value.advice), true)
      else Pick(NonHealthResponses)
  }

  /** A phrase match outranks everything else, whatever conditions the message names. */
  lemma PhraseOutranksKnowledgeBase(msg: string, kb: KnowledgeBase, context: map<int, string>, userId: int, i: nat)
    requires i < |Phrases| && MentionsAny(msg, Phrases[i].keywords)
    requires forall j :: 0 <= j < i ==> !MentionsAny(msg, Phrases[j].keywords)
    ensures Decide(msg, kb, context, userId) == Pick(Phrases[i].responses)
  {
  }

  /** A greeting wins even when the message also names a condition of the knowledge base. */
  lemma GreetingWins(kb: KnowledgeBase, context: map<int, string>, userId: int)
    ensures Decide("hello, i have a fever", kb, context, userId) == Pick(Greetings.responses)
  {
    var msg := "hello, i have a fever";
    assert msg[0..2] == "hi"[..0] + "he";
    assert StartsWith(msg, "hello");
    assert Contains(msg, "hello");
    assert "hello" in Greetings.keywords;
    PhraseOutranksKnowledgeBase(msg, kb, context, userId, 0);
  }

  /** Without a phrase, a message naming a condition gets the composed sections, and nothing is forgotten. */
  lemma KnowledgeBaseOutranksFollowUp(msg: string, kb: KnowledgeBase, context: map<int, string>, userId: int, i: nat)
    requires FirstPhrase(msg).None?
    requires i < |kb| && Contains(msg, kb[i].key)
    ensures Decide(msg, kb, context, userId) == Say(ComposedReply(kb, Matched(kb, msg)), false)
  {
    MatchedComplete(kb, msg, i);
  }

  /**
   * Nothing ever stores a symptom, so from an empty context the follow-up
   * never fires and a message without phrase or condition gets the fallback.
   */
  lemma EmptyContextNoFollowUp(msg: string, kb: KnowledgeBase, userId: int)
    ensures Decide(msg, kb, map[], userId).Say? ==> !Decide(msg, kb, map[], userId).forget
    ensures FirstPhrase(msg).None? && Matched(kb, msg) == [] ==>
      Decide(msg, kb, map[], userId) == Pick(NonHealthResponses)
  {
  }

  /** The reply is the translation of the decided text, or of one of the decided choices. */
  ghost predicate Answers(d: Decision, reply: string, code: string, translate: Translator) {
    match d
    case Pick(choices) => exists t :: t in choices && reply == translate(t, code)
    case Say(text, _) => reply == translate(text, code)
  }

  /** A follow-up forgets the user's symptom; nothing else changes the context. */
  function ContextAfter(d: Decision, context: map<int, string>, userId: int): (r: map<int, string>)
    ensures r.Keys <= context.Keys
  {
    if d.Say? && d.forget then context - {userId} else context
  }

  /** `conversation_context`, the module-level dictionary of remembered symptoms. */
  class Bot {
    var context: map<int, string>

    constructor ()
      ensures context == map[]
    {
      context := map[];
    }

    /**
     * `wellness_response`: the reply is the translation of the decided text,
     * or of one of the decided choices; a follow-up forgets the user's
     * symptom, and nothing is ever remembered.
     */
    method WellnessResponse(message: string, language: string, userId: int,
                            kb: KnowledgeBase, translate: Translator)
      returns (reply: string)
      modifies this
      ensures Answers(Decide(EnglishMessage(message, LangCode(language), translate), kb, old(context), userId),
                      reply, LangCode(language), translate)
      ensures context == ContextAfter(Decide(EnglishMessage(message, LangCode(language), translate), kb, old(context), userId),
                                      old(context), userId)
    {
      var code := LangCode(language);
      var english := EnglishMessage(message, code, translate);
      ghost var d := Decide(english, kb, context, userId);
      assert d == Decide(EnglishMessage(message, LangCode(language), translate), kb, old(context), userId);

      var phrase := FindPhrase(english);
      if phrase.Some? {
        assert d == Pick(Phrases[phrase.value].responses);
        RepliesOffered(phrase.value);
        reply := PickReply(Phrases[phrase.value].responses, code, translate);
        assert context == old(context);
        return;
      }

      reply := RespondToHealth(english, kb, userId, code, translate);
    }

    /** `wellness_response` past the phrase categories: the conditions, the follow-up, the fallback. */
    method RespondToHealth(english: string, kb: KnowledgeBase, userId: int, code: string, translate: Translator)
      returns (reply: string)
      requires FirstPhrase(english).None?
      modifies this
      ensures Answers(Decide(english, kb, old(context), userId), reply, code, translate)
      ensures context == ContextAfter(Decide(english, kb, old(context), userId), old(context), userId)
    {
      ghost var d := Decide(english, kb, context, userId);
      var matched := MatchConditions(kb, english);
      if matched != [] {
        var combined := ComposeSections(kb, matched);
        reply := translate(Trim(Join(combined, "\n")), code);
        assert d == Say(ComposedReply(kb, matched), false);
        assert context == ContextAfter(d, old(context), userId);
        return;
      }

      // a remembered symptom
      if userId in context && context[userId] != "" {
        var symptom := context[userId];
        var info := Lookup(kb, symptom);
        if info.Some? {
          var followup := SectionIntro + symptom + ". " + AdviceIntro + Join(Padded("- ", info.value.advice), "\n");
          assert d == Say(followup, true);
          context := context - {userId};
          reply := translate(followup, code);
          assert context == ContextAfter(d, old(context), userId);
          return;
        }
      }
      assert d == Pick(NonHealthResponses);

      // The question branch asks about the first key that occurs in the
      // message. It is kept to follow the source, but it is dead: this point
      // is reached only when nothing was matched, and by NoMatchMeansNoKey
      // no key then occurs in the message.
      NoMatchMeansNoKey(kb, english);
      var q := 0;
      while q < |kb|
        invariant 0 <= q <= |kb|
      {
        if Contains(english, kb[q].key) {
          assert false;
        }
        q := q + 1;
      }

      RepliesOffered(0);
      reply := PickReply(NonHealthResponses, code, translate);
      assert context == old(context);
    }

    /** `random.choice` of a list, translated. */
    method PickReply(choices: seq<string>, code: string, translate: Translator) returns (reply: string)
      requires choices != []
      ensures exists t :: t in choices && reply == translate(t, code)
    {
      assert choices[0] in choices;
      var choice :| choice in choices;
      reply := translate(choice, code);
    }

    /** The loop over the phrase categories. */
    method FindPhrase(msg: string) returns (r: Option<nat>)
      ensures r == FirstPhrase(msg)
    {
      var c := 0;
      while c < |Phrases|
        invariant 0 <= c <= |Phrases|
        invariant forall j :: 0 <= j < c ==> !MentionsAny(msg, Phrases[j].keywords)
      {
        if MentionsAny(msg, Phrases[c].keywords) {
          return Some(c);
        }
        c := c + 1;
      }
      return None;
    }

    /** The loop collecting `matched_conditions`. */
    method MatchConditions(kb: KnowledgeBase, msg: string) returns (matched: seq<string>)
      ensures matched == Matched(kb, msg)
    {
      matched := [];
      var k := 0;
      while k < |kb|
        invariant 0 <= k <= |kb|
        invariant matched == Matched(kb[..k], msg)
      {
        assert kb[..k + 1][..k] == kb[..k];
        if Contains(msg, kb[k].key) {
          matched := matched + [kb[k].key];
        }
        k := k + 1;
      }
      assert kb[..|kb|] == kb;
    }

    /** The loop building `combined_response`. */
    method ComposeSections(kb: KnowledgeBase, matched: seq<string>) returns (combined: seq<string>)
      ensures combined == Sections(kb, matched)
    {
      combined := [];
      var m := 0;
      while m < |matched|
        invariant 0 <= m <= |matched|
        invariant combined == Sections(kb, matched[..m])
      {
        ghost var prefix := matched[..m + 1];
        assert prefix[..m] == matched[..m] && prefix[m] == matched[m];
        var info := Lookup(kb, matched[m]);
        if info.Some? {
          var section := BuildSection(matched[m], info.value.advice);
          combined := combined + [section];
        }
        assert combined == Sections(kb, prefix);
        m := m + 1;
      }
      assert matched[..|matched|] == matched;
    }

    /** The loop that appends one bullet per advice item to a section. */
    method BuildSection(condition: string, advice: seq<string>) returns (section: string)
      ensures section == Section(condition, advice)
    {
      section := SectionIntro + Capitalize(condition) + ".\n" + AdviceIntro;
      ghost var head := section;
      var a := 0;
      while a < |advice|
        invariant 0 <= a <= |advice|
        invariant section == head + Bullets(advice[..a])
      {
        BulletsSnoc(advice[..a], advice[a]);
        assert advice[..a + 1] == advice[..a] + [advice[a]];
        section := section + ("- " + advice[a] + "\n");
        a := a + 1;
      }
      assert advice[..|advice|] == advice;
    }
  }
}
