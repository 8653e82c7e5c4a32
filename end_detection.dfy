/**
 * End-of-conversation detection (`TwilioService.detect_conversation_end`): the
 * caller's transcript ends the call when, lower-cased, it contains one of ten
 * fixed Arabic and English phrases.
 */
module EndDetection {
  import opened Text

  /** The phrase list, in the source's order. */
  const EndPhrases: seq<string> := [
    "مع السلامة", "باي", "شكراً", "خلاص", "يعطيك العافية",
    "goodbye", "bye", "thank you", "thanks", "end call"
  ]

  /** Python's `any(phrase in text for phrase in phrases)`, tried in list order. */
  function AnyPhraseIn(text: string, phrases: seq<string>): bool
  {
    |phrases| > 0 && (Contains(text, phrases[0]) || AnyPhraseIn(text, phrases[1..]))
  }

  /** `any` holds exactly when some phrase of the list occurs in the text. */
  lemma {:induction false} AnyPhraseInIff(text: string, phrases: seq<string>)
    ensures AnyPhraseIn(text, phrases) <==> exists k | 0 <= k < |phrases| :: Contains(text, phrases[k])
  {
    if |phrases| > 0 {
      AnyPhraseInIff(text, phrases[1..]);
      if exists k | 0 <= k < |phrases| :: Contains(text, phrases[k]) {
        var k :| 0 <= k < |phrases| && Contains(text, phrases[k]);
        if k > 0 {
          assert phrases[1..][k - 1] == phrases[k];
        }
      }
      if AnyPhraseIn(text, phrases[1..]) {
        var k :| 0 <= k < |phrases| - 1 && Contains(text, phrases[1..][k]);
        assert Contains(text, phrases[k + 1]);
      }
    }
  }

  /** `detect_conversation_end(user_input)`. */
  function DetectConversationEnd(userInput: string): bool
  {
    AnyPhraseIn(Lower(userInput), EndPhrases)
  }

  /** The call ends exactly when one of the ten phrases is a substring of the lower-cased input. */
  lemma DetectConversationEndIff(userInput: string)
    ensures DetectConversationEnd(userInput) <==>
            exists k | 0 <= k < |EndPhrases| :: Contains(Lower(userInput), EndPhrases[k])
  {
    AnyPhraseInIff(Lower(userInput), EndPhrases);
  }

  /** Matching ignores case: an input and its lower-cased form are judged alike. */
  lemma DetectIgnoresCase(userInput: string)
    ensures DetectConversationEnd(Lower(userInput)) == DetectConversationEnd(userInput)
  {
    LowerIdempotent(userInput);
  }

  /** Upward closure: any text that contains a triggering text triggers too. */
  lemma DetectUpwardClosed(s: string, t: string)
    requires Contains(t, s) && DetectConversationEnd(s)
    ensures DetectConversationEnd(t)
  {
    DetectConversationEndIff(s);
    DetectConversationEndIff(t);
    var k :| 0 <= k < |EndPhrases| && Contains(Lower(s), EndPhrases[k]);
    ContainsLower(t, s);
    ContainsTransitive(Lower(t), Lower(s), EndPhrases[k]);
  }

  /** No end phrase is empty. */
  lemma PhrasesNonEmpty()
    ensures forall k | 0 <= k < |EndPhrases| :: |EndPhrases[k]| > 0
  {
  }

  /** The empty transcript never ends the call: no phrase is empty. */
  lemma EmptyDoesNotEnd()
    ensures !DetectConversationEnd("")
  {
    PhrasesNonEmpty();
    assert Lower("") == "";
    DetectConversationEndIff("");
  }

  /** Upper-case English phrases end the call: "BYE" and "Thank You". */
  lemma UpperCasePhrasesEnd()
    ensures DetectConversationEnd("BYE")
    ensures DetectConversationEnd("Thank You")
  {
    assert Lower("BYE") == "bye";
    assert MatchesAt(Lower("BYE"), EndPhrases[6], 0);
    assert Lower("Thank You") == "thank you";
    assert MatchesAt(Lower("Thank You"), EndPhrases[7], 0);
  }

  /** An English farewell inside a longer sentence ends the call. */
  lemma EnglishFarewellEnds()
    ensures DetectConversationEnd("ok thanks bye")
  {
    assert Lower("ok thanks bye") == "ok thanks bye";
    assert MatchesAt(Lower("ok thanks bye"), EndPhrases[8], 3);
  }

  /** An Arabic farewell after a thank-you ends the call. */
  lemma ArabicFarewellEnds()
    ensures DetectConversationEnd("شكراً، مع السلامة")
  {
    assert Lower("شكراً، مع السلامة") == "شكراً، مع السلامة";
    assert MatchesAt(Lower("شكراً، مع السلامة"), EndPhrases[0], 7);
  }

  /** Phrases are matched as substrings, not words: "thanksgiving" contains "thanks". */
  lemma PhraseInsideWordEnds()
    ensures DetectConversationEnd("thanksgiving")
  {
    assert Lower("thanksgiving") == "thanksgiving";
    assert MatchesAt(Lower("thanksgiving"), EndPhrases[8], 0);
  }

  /** A phrase holding a character the text lacks does not occur in the text. */
  lemma MissingCharExcludes(s: string, p: string, j: int)
    requires 0 <= j < |p| && p[j] !in s
    ensures !Contains(s, p)
  {
    if Contains(s, p) {
      ContainsCharOf(s, p, j);
      assert false;
    }
  }

  const Question := "what is the weather"

  /** A phrase that starts outside ASCII does not occur in an all-ASCII text. */
  lemma NonAsciiExcluded(s: string, p: string)
    requires |p| > 0 && p[0] as int >= 128
    requires forall i | 0 <= i < |s| :: s[i] as int < 128
    ensures !Contains(s, p)
  {
    if Contains(s, p) {
      ContainsCharOf(s, p, 0);
      assert false;
    }
  }

  /** None of the Arabic phrases occurs in the question, which is plain ASCII. */
  lemma QuestionLacksArabicPhrases()
    ensures forall k | 0 <= k < 5 :: !Contains(Question, EndPhrases[k])
  {
    assert forall i | 0 <= i < |Question| :: Question[i] as int < 128;
    forall k | 0 <= k < 5
      ensures !Contains(Question, EndPhrases[k])
    {
      NonAsciiExcluded(Question, EndPhrases[k]);
    }
  }

  /** None of the English phrases occurs in the question: each holds a letter it lacks. */
  lemma QuestionLacksEnglishPhrases()
    ensures forall k | 5 <= k < 10 :: !Contains(Question, EndPhrases[k])
  {
    MissingCharExcludes(Question, EndPhrases[5], 0);
    MissingCharExcludes(Question, EndPhrases[6], 0);
    MissingCharExcludes(Question, EndPhrases[7], 4);
    MissingCharExcludes(Question, EndPhrases[8], 4);
    MissingCharExcludes(Question, EndPhrases[9], 1);
  }

  /** An ordinary question does not end the call. */
  lemma QuestionDoesNotEnd()
    ensures !DetectConversationEnd(Question)
  {
    QuestionLacksArabicPhrases();
    QuestionLacksEnglishPhrases();
    assert Lower(Question) == Question;
    DetectConversationEndIff(Question);
  }
}
