/**
 * The voice path of the shared input field. For number, telephone and
 * numeric fields the transcript is lowercased, every English number word
 * and then every Tamil number word (script and phonetic spellings) is
 * rewritten to its digits with `replaceAll`, in the order the words are
 * listed, and finally everything that is not a decimal digit is dropped.
 * Other fields receive the transcript unchanged.
 */
module VoiceInput {
  import opened JsText

  /** One entry of a word map: every occurrence of `word` becomes `digits`. */
  datatype Rule = Rule(word: string, digits: string)

  /** The English map, in its key order. */
  const EnglishRules: seq<Rule> := [
    Rule("zero", "0"), Rule("one", "1"), Rule("two", "2"), Rule("three", "3"),
    Rule("four", "4"), Rule("five", "5"), Rule("six", "6"), Rule("seven", "7"),
    Rule("eight", "8"), Rule("nine", "9"), Rule("ten", "10")
  ]

  /** The Tamil map, in its key order: the eleven words in Tamil script
      (zero to ten) and five phonetic spellings of one to five. */
  const TamilRules: seq<Rule> := [
    Rule("\U{0BAA}\U{0BC2}\U{0B9C}\U{0BCD}\U{0B9C}\U{0BBF}\U{0BAF}\U{0BAE}\U{0BCD}", "0"),
    Rule("\U{0B92}\U{0BA9}\U{0BCD}\U{0BB1}\U{0BC1}", "1"),
    Rule("\U{0B87}\U{0BB0}\U{0BA3}\U{0BCD}\U{0B9F}\U{0BC1}", "2"),
    Rule("\U{0BAE}\U{0BC2}\U{0BA9}\U{0BCD}\U{0BB1}\U{0BC1}", "3"),
    Rule("\U{0BA8}\U{0BBE}\U{0BA9}\U{0BCD}\U{0B95}\U{0BC1}", "4"),
    Rule("\U{0B90}\U{0BA8}\U{0BCD}\U{0BA4}\U{0BC1}", "5"),
    Rule("\U{0B86}\U{0BB1}\U{0BC1}", "6"),
    Rule("\U{0B8F}\U{0BB4}\U{0BC1}", "7"),
    Rule("\U{0B8E}\U{0B9F}\U{0BCD}\U{0B9F}\U{0BC1}", "8"),
    Rule("\U{0B92}\U{0BA9}\U{0BCD}\U{0BAA}\U{0BA4}\U{0BC1}", "9"),
    Rule("\U{0BAA}\U{0BA4}\U{0BCD}\U{0BA4}\U{0BC1}", "10"),
    Rule("onnu", "1"), Rule("rendu", "2"), Rule("moonu", "3"),
    Rule("naalu", "4"), Rule("anju", "5")
  ]

  /** Every word is non-empty and starts with a character that is not a
      decimal digit; every replacement is made of digits. */
  predicate WellFormedRules(rules: seq<Rule>)
  {
    forall k :: 0 <= k < |rules| ==>
      rules[k].word != [] && !IsDigit(rules[k].word[0]) && AllDigits(rules[k].digits)
  }

  lemma WellFormedConcat(a: seq<Rule>, b: seq<Rule>)
    requires WellFormedRules(a) && WellFormedRules(b)
    ensures WellFormedRules(a + b)
  {
    forall k | 0 <= k < |a + b|
      ensures (a + b)[k].word != [] && !IsDigit((a + b)[k].word[0]) && AllDigits((a + b)[k].digits)
    {
      if k >= |a| {
        assert (a + b)[k] == b[k - |a|];
      }
    }
  }

  lemma EnglishWellFormed()
    ensures WellFormedRules(EnglishRules)
  {
  }

  lemma TamilWellFormed()
    ensures WellFormedRules(TamilRules)
  {
  }

  lemma MapsWellFormed()
    ensures WellFormedRules(EnglishRules) && WellFormedRules(TamilRules)
    ensures WellFormedRules(EnglishRules + TamilRules)
  {
    EnglishWellFormed();
    TamilWellFormed();
    WellFormedConcat(EnglishRules, TamilRules);
  }

  /** The rules applied one after the other, each with `replaceAll`. */
  function Rewrite(s: string, rules: seq<Rule>): string
    requires WellFormedRules(rules)
  {
    if rules == [] then s
    else
      var last := rules[|rules| - 1];
      ReplaceAll(Rewrite(s, rules[..|rules| - 1]), last.word, last.digits)
  }

  /** Running two word lists one after the other is running their
      concatenation. */
  lemma {:induction false} RewriteConcat(s: string, a: seq<Rule>, b: seq<Rule>)
    requires WellFormedRules(a) && WellFormedRules(b)
    ensures WellFormedRules(a + b)
    ensures Rewrite(s, a + b) == Rewrite(Rewrite(s, a), b)
    decreases |b|
  {
    WellFormedConcat(a, b);
    if b == [] {
      assert a + b == a;
    } else {
      var init := b[..|b| - 1];
      WellFormedPrefix(b, |b| - 1);
      RewriteConcat(s, a, init);
      var ab := a + b;
      assert ab[..|ab| - 1] == a + init;
      assert ab[|ab| - 1] == b[|b| - 1];
      RewriteLast(s, ab);
      RewriteLast(Rewrite(s, a), b);
    }
  }

  /** The last rule is the last pass. */
  lemma RewriteLast(s: string, rules: seq<Rule>)
    requires WellFormedRules(rules) && rules != []
    ensures WellFormedRules(rules[..|rules| - 1])
    ensures Rewrite(s, rules) ==
      ReplaceAll(Rewrite(s, rules[..|rules| - 1]), rules[|rules| - 1].word, rules[|rules| - 1].digits)
  {
  }

  lemma WellFormedPrefix(rules: seq<Rule>, n: nat)
    requires WellFormedRules(rules) && n <= |rules|
    ensures WellFormedRules(rules[..n])
  {
  }

  /** A word whose first character is at no position where the word
      would still fit does not occur. */
  lemma AbsentFirstChar(s: string, word: string)
    requires word != []
    requires forall i :: 0 <= i <= |s| - |word| ==> s[i] != word[0]
    ensures !Includes(s, word)
  {
    forall i | 0 <= i <= |s| - |word|
      ensures !IsPrefix(word, s[i..])
    {
      assert s[i..][0] == s[i];
    }
  }

  /** A text in which no rule's word can start is left as it is. */
  lemma {:induction false} RewriteUntouched(s: string, rules: seq<Rule>)
    requires WellFormedRules(rules)
    requires forall k, i :: 0 <= k < |rules| && 0 <= i < |s| ==> s[i] != rules[k].word[0]
    ensures Rewrite(s, rules) == s
  {
    if rules != [] {
      var init := rules[..|rules| - 1];
      assert forall k :: 0 <= k < |init| ==> init[k] == rules[k];
      RewriteUntouched(s, init);
      AbsentFirstChar(s, rules[|rules| - 1].word);
    }
  }

  /** `processVoiceInput(text)`; `shouldConvert` is `type === 'number' ||
      type === 'tel' || isNumeric`. */
  function Normalise(text: string, shouldConvert: bool): (r: string)
    ensures !shouldConvert ==> r == text
    ensures shouldConvert ==> AllDigits(r)
  {
    MapsWellFormed();
    if !shouldConvert then text
    else KeepDigits(Rewrite(ToLower(text), EnglishRules + TamilRules))
  }

  /** On the numeric path a text made of digits comes back unchanged, so
      normalising twice is normalising once. */
  lemma DigitsUnchanged(text: string)
    requires AllDigits(text)
    ensures Normalise(text, true) == text
  {
    MapsWellFormed();
    var rules := EnglishRules + TamilRules;
    assert ToLower(text) == text;
    RewriteUntouched(text, rules);
  }

  lemma NormaliseIdempotent(text: string, shouldConvert: bool)
    ensures Normalise(Normalise(text, shouldConvert), shouldConvert) == Normalise(text, shouldConvert)
  {
    if shouldConvert {
      DigitsUnchanged(Normalise(text, true));
    }
  }

  lemma ReplaceOneExample()
    ensures ReplaceAll("one two", "one", "1") == "1 two"
  {
    assert " two"[0] == ' ' && " two"[1] == 't';
    ReplaceLeadingWord("one", " two", "1");
    assert "one" + " two" == "one two";
  }

  /** A word at the start of a text in which it cannot start again is
      replaced once, and the rest is kept. */
  lemma ReplaceLeadingWord(word: string, t: string, rep: string)
    requires word != []
    requires forall i :: 0 <= i <= |t| - |word| ==> t[i] != word[0]
    ensures ReplaceAll(word + t, word, rep) == rep + t
  {
    var s := word + t;
    assert s[..|word|] == word && s[|word|..] == t;
    AbsentFirstChar(t, word);
  }

  lemma ReplaceTwoExample()
    ensures ReplaceAll("1 two", "two", "2") == "1 2"
  {
    var s := "1 two";
    assert s[..3] != "two" && s[1..] == " two";
    assert s[1..][..3] != "two" && s[1..][1..] == "two";
    calc {
      ReplaceAll(s, "two", "2");
      "1" + ReplaceAll(" two", "two", "2");
      "1" + (" " + ReplaceAll("two", "two", "2"));
      { assert "two"[3..] == []; }
      "1" + (" " + ("2" + ReplaceAll([], "two", "2")));
      "1 2";
    }
  }

  /** Adding one rule at the end adds one `replaceAll` pass. */
  lemma RewriteSnoc(s: string, rules: seq<Rule>, last: Rule)
    requires WellFormedRules(rules)
    requires last.word != [] && !IsDigit(last.word[0]) && AllDigits(last.digits)
    ensures WellFormedRules(rules + [last])
    ensures Rewrite(s, rules + [last]) == ReplaceAll(Rewrite(s, rules), last.word, last.digits)
  {
    assert (rules + [last])[..|rules|] == rules;
  }

  lemma ZeroPassExample()
    ensures WellFormedRules([Rule("zero", "0")])
    ensures Rewrite("one two", [Rule("zero", "0")]) == "one two"
  {
    var none: seq<Rule> := [];
    RewriteSnoc("one two", none, Rule("zero", "0"));
    assert none + [Rule("zero", "0")] == [Rule("zero", "0")];
    AbsentFirstChar("one two", "zero");
  }

  lemma OnePassExample()
    ensures WellFormedRules([Rule("zero", "0"), Rule("one", "1")])
    ensures Rewrite("one two", [Rule("zero", "0"), Rule("one", "1")]) == "1 two"
  {
    ZeroPassExample();
    RewriteSnoc("one two", [Rule("zero", "0")], Rule("one", "1"));
    assert [Rule("zero", "0")] + [Rule("one", "1")] == [Rule("zero", "0"), Rule("one", "1")];
    ReplaceOneExample();
  }

  /** The first three English words, one at a time, on "one two". */
  lemma {:induction false} EnglishPrefixExample(r: seq<Rule>)
    requires r == [Rule("zero", "0"), Rule("one", "1"), Rule("two", "2")]
    ensures WellFormedRules(r)
    ensures Rewrite("one two", r) == "1 2"
  {
    var zo := [Rule("zero", "0"), Rule("one", "1")];
    OnePassExample();
    RewriteSnoc("one two", zo, Rule("two", "2"));
    assert zo + [Rule("two", "2")] == r;
    ReplaceTwoExample();
  }

  lemma {:induction false} EnglishExample()
    ensures WellFormedRules(EnglishRules)
    ensures Rewrite("one two", EnglishRules) == "1 2"
  {
    MapsWellFormed();
    var r, rest := EnglishRules[..3], EnglishRules[3..];
    assert r == [Rule("zero", "0"), Rule("one", "1"), Rule("two", "2")];
    EnglishPrefixExample(r);
    assert EnglishRules == r + rest;
    RewriteUntouched("1 2", rest);
    RewriteConcat("one two", r, rest);
  }

  /** No Tamil word can start in "1 2". */
  lemma TamilLeavesDigits()
    ensures WellFormedRules(TamilRules)
    ensures Rewrite("1 2", TamilRules) == "1 2"
  {
    TamilWellFormed();
    RewriteUntouched("1 2", TamilRules);
  }

  /** Upper-case words are recognised: "ONE two" becomes "12". */
  lemma MixedCaseExample()
    ensures Normalise("ONE two", true) == "12"
  {
    MapsWellFormed();
    assert ToLower("ONE two") == "one two";
    EnglishExample();
    TamilLeavesDigits();
    RewriteConcat("one two", EnglishRules, TamilRules);
    KeepDigitsOneTwo();
  }

  /** Stripping the space from "1 2" leaves "12". */
  lemma KeepDigitsOneTwo()
    ensures KeepDigits("1 2") == "12"
  {
    assert "1 2"[1..] == " 2" && " 2"[1..] == "2" && "2"[1..] == "";
    assert KeepDigits("2") == "2";
    assert KeepDigits(" 2") == "2";
  }

  /** One `forEach` pass over a map: each rule's `replaceAll` in turn. */
  method ApplyRules(s: string, rules: seq<Rule>) returns (processed: string)
    requires WellFormedRules(rules)
    ensures processed == Rewrite(s, rules)
  {
    processed := s;
    var i := 0;
    while i < |rules|
      invariant 0 <= i <= |rules|
      invariant WellFormedRules(rules[..i])
      invariant processed == Rewrite(s, rules[..i])
    {
      assert rules[..i + 1][..i] == rules[..i];
      processed := ReplaceAll(processed, rules[i].word, rules[i].digits);
      i := i + 1;
    }
    assert rules[..i] == rules;
  }

  /** `processVoiceInput`, written as the two `forEach` passes over the
      maps. */
  method ProcessVoiceInput(text: string, shouldConvert: bool) returns (r: string)
    ensures r == Normalise(text, shouldConvert)
  {
    if !shouldConvert {
      return text;
    }
    MapsWellFormed();
    var processed := ToLower(text);
    processed := ApplyRules(processed, EnglishRules);
    processed := ApplyRules(processed, TamilRules);
    RewriteConcat(ToLower(text), EnglishRules, TamilRules);
    r := KeepDigits(processed);
  }

  /** `handleVoiceInput`: the field's change handler receives exactly the
      normalised transcript as the new value. */
  method HandleVoiceInput(transcript: string, shouldConvert: bool) returns (newValue: string)
    ensures shouldConvert ==> AllDigits(newValue)
    ensures !shouldConvert ==> newValue == transcript
    ensures newValue == Normalise(transcript, shouldConvert)
  {
    newValue := ProcessVoiceInput(transcript, shouldConvert);
  }
}
