/** The text humanizer: a fixed pipeline of seven rewrite stages, each switched
    on by an option flag. The two lexical stages are whole-word,
    case-insensitive table substitutions; the five others inject phrases into
    `". "`-separated sentences or `"\n\n"`-separated paragraphs, or swap in
    informal spellings, at random. Every random decision is an input here: a
    `Draw` says whether a slot is chosen and which list entry it picks. */
module Humanizer {
  import opened Wrappers
  import opened StringOps
  import opened WordRegex

  // ---------------------------------------------------------------------------
  // options and random choices
  // ---------------------------------------------------------------------------

  /** The optional boolean flags; `None` is an omitted property. */
  datatype HumanizerOptions = HumanizerOptions(
    addPersonalTouch: Option<bool>,
    addTypos: Option<bool>,
    addContractions: Option<bool>,
    addFillerWords: Option<bool>,
    addEmotions: Option<bool>,
    addPersonalExperiences: Option<bool>,
    addCasualLanguage: Option<bool>)

  /** `if (options.flag)`: only an explicit `true` switches the stage on. */
  predicate Truthy(flag: Option<bool>)
  {
    flag == Some(true)
  }

  /** `options.flag !== false`: the stage is on unless explicitly switched off. */
  predicate NotFalse(flag: Option<bool>)
  {
    flag != Some(false)
  }

  /** One random slot: `Math.random() < p` came out true (`chosen`), and the
      value behind `Math.floor(Math.random() * n)` (`pick`, reduced mod n). */
  datatype Draw = Draw(chosen: bool, pick: nat)

  /** A filler-word slot also draws the insertion position. */
  datatype FillerDraw = FillerDraw(chosen: bool, pick: nat, at: nat)

  /** All random outcomes of one call, per stage and per sentence, paragraph
      or table entry index. */
  datatype Chance = Chance(
    touch: nat -> Draw,
    experience: nat -> Draw,
    filler: nat -> FillerDraw,
    emotion: nat -> Draw,
    typo: nat -> bool)

  /** `list[Math.floor(Math.random() * list.length)]`: every entry is reachable
      and no other value is. */
  function Pick(list: seq<string>, r: nat): string
    requires list != []
  {
    list[r % |list|]
  }

  // ---------------------------------------------------------------------------
  // constant tables
  // ---------------------------------------------------------------------------

  type Word = s: string | s != [] witness "a"

  /** One table entry: whole-word occurrences of `word` become `replacement`. */
  datatype Rule = Rule(word: Word, replacement: string)

  const PersonalTouches: seq<string> := [
    "In my experience,", "I've found that", "From what I've seen,",
    "Based on my observations,", "I've noticed that", "In my opinion,",
    "I believe", "I think", "It seems to me that", "I've learned that"]

  const PersonalExperiences: seq<string> := [
    "I remember when I first", "A few years ago, I", "I used to struggle with",
    "When I started out,", "I've been doing this for years, and", "Back in the day,",
    "I once had a client who", "I'll never forget when", "One time, I",
    "I've made this mistake before:"]

  const Contractions: seq<Rule> := [
    Rule("do not", "don't"), Rule("does not", "doesn't"), Rule("did not", "didn't"),
    Rule("will not", "won't"), Rule("would not", "wouldn't"), Rule("could not", "couldn't"),
    Rule("should not", "shouldn't"), Rule("cannot", "can't"), Rule("is not", "isn't"),
    Rule("are not", "aren't"), Rule("was not", "wasn't"), Rule("were not", "weren't"),
    Rule("have not", "haven't"), Rule("has not", "hasn't"), Rule("had not", "hadn't"),
    Rule("I am", "I'm"), Rule("you are", "you're"), Rule("he is", "he's"),
    Rule("she is", "she's"), Rule("it is", "it's"), Rule("we are", "we're"),
    Rule("they are", "they're"), Rule("I have", "I've"), Rule("you have", "you've"),
    Rule("we have", "we've"), Rule("they have", "they've"), Rule("I will", "I'll"),
    Rule("you will", "you'll"), Rule("he will", "he'll"), Rule("she will", "she'll"),
    Rule("we will", "we'll"), Rule("they will", "they'll")]

  const FillerWords: seq<string> := [
    "actually", "basically", "honestly", "literally", "obviously", "seriously",
    "definitely", "probably", "maybe", "perhaps", "sort of", "kind of",
    "you know", "I mean", "like", "well", "so", "anyway", "by the way"]

  const Emotions: seq<string> := [
    "I'm excited about", "I love how", "I'm passionate about", "It's frustrating when",
    "I'm amazed by", "I'm curious about", "I'm worried that", "I'm confident that",
    "I'm surprised by", "I'm grateful for"]

  const CasualReplacements: seq<Rule> := [
    Rule("utilize", "use"), Rule("commence", "start"), Rule("terminate", "end"),
    Rule("facilitate", "help"), Rule("demonstrate", "show"), Rule("implement", "do"),
    Rule("optimize", "improve"), Rule("prioritize", "focus on"), Rule("strategize", "plan"),
    Rule("conceptualize", "think about"), Rule("furthermore", "also"), Rule("therefore", "so"),
    Rule("however", "but"), Rule("nevertheless", "still"), Rule("consequently", "as a result"),
    Rule("subsequently", "then"), Rule("additionally", "plus"), Rule("alternatively", "or"),
    Rule("specifically", "exactly"), Rule("particularly", "especially")]

  /** The informal-spelling table, entry by entry in source order: the formal
      spelling (the table's value) is the word searched for and the informal
      one (the table's key) replaces it. */
  const InformalSpellings: seq<Rule> := [
    Rule("alright", "alright"), Rule("going to", "gonna"), Rule("want to", "wanna"),
    Rule("got to", "gotta"), Rule("kind of", "kinda"), Rule("sort of", "sorta"),
    Rule("don't know", "dunno"), Rule("yes", "yeah"), Rule("no", "nope"),
    Rule("yes", "yep")]

  const SentenceSep: string := ". "
  const ParagraphSep: string := "\n\n"

  // ---------------------------------------------------------------------------
  // lexical stages
  // ---------------------------------------------------------------------------

  /** The `forEach` over a table: each entry whose gate is open rewrites the
      text left by the entries before it. */
  function ApplyRules(text: string, rules: seq<Rule>, gate: nat -> bool): string
    decreases |rules|
  {
    if rules == [] then text
    else
      var k := |rules| - 1;
      var before := ApplyRules(text, rules[..k], gate);
      if gate(k) then ReplaceWord(before, rules[k].word, rules[k].replacement) else before
  }

  /** Every gate open: the contraction and casual tables apply every entry. */
  const Always: nat -> bool := (k: nat) => true

  /** No entry of `rules` matches `text` anywhere as a whole word. */
  predicate NoWholeWord(text: string, rules: seq<Rule>)
  {
    forall k, m :: 0 <= k < |rules| && 0 <= m < |text| ==> !MatchAt(text, rules[k].word, m)
  }

  /** A text that contains no whole-word occurrence of any table entry passes
      through the table unchanged. */
  lemma {:induction false} ApplyRulesNoMatch(text: string, rules: seq<Rule>, gate: nat -> bool)
    requires NoWholeWord(text, rules)
    ensures ApplyRules(text, rules, gate) == text
    decreases |rules|
  {
    if rules != [] {
      var k := |rules| - 1;
      assert NoWholeWord(text, rules[..k]);
      ApplyRulesNoMatch(text, rules[..k], gate);
      if gate(k) {
        ReplaceWordNoMatch(text, rules[k].word, rules[k].replacement);
      }
    }
  }

  /** With every gate closed (no informal spelling drawn) the table is skipped. */
  lemma {:induction false} ApplyRulesClosed(text: string, rules: seq<Rule>, gate: nat -> bool)
    requires forall k :: 0 <= k < |rules| ==> !gate(k)
    ensures ApplyRules(text, rules, gate) == text
    decreases |rules|
  {
    if rules != [] {
      ApplyRulesClosed(text, rules[..|rules| - 1], gate);
    }
  }

  /** When exactly one entry of a table hits the text, the table rewrites the
      whole-word occurrences of that entry and nothing else. */
  lemma {:induction false} ApplyRulesOneHit(text: string, rules: seq<Rule>, gate: nat -> bool, j: nat)
    requires j < |rules| && gate(j)
    requires NoWholeWord(text, rules[..j])
    requires NoWholeWord(ReplaceWord(text, rules[j].word, rules[j].replacement), rules[j + 1..])
    ensures ApplyRules(text, rules, gate) == ReplaceWord(text, rules[j].word, rules[j].replacement)
    decreases |rules|
  {
    var k := |rules| - 1;
    var hit := ReplaceWord(text, rules[j].word, rules[j].replacement);
    if k == j {
      ApplyRulesNoMatch(text, rules[..j], gate);
    } else {
      assert rules[..k][..j] == rules[..j];
      assert rules[..k][j + 1..] == rules[j + 1..k];
      var later := rules[j + 1..k];
      assert NoWholeWord(hit, later) by {
        forall i, m | 0 <= i < |later| && 0 <= m < |hit|
          ensures !MatchAt(hit, later[i].word, m)
        {
          assert later[i] == rules[j + 1..][i];
        }
      }
      ApplyRulesOneHit(text, rules[..k], gate, j);
      assert rules[k] == rules[j + 1..][k - j - 1];
      ReplaceWordNoMatch(hit, rules[k].word, rules[k].replacement);
    }
  }

  /** The imperative `forEach` that reassigns the running text. */
  method RewriteEach(text: string, rules: seq<Rule>, gate: nat -> bool) returns (result: string)
    ensures result == ApplyRules(text, rules, gate)
  {
    result := text;
    for k := 0 to |rules|
      invariant result == ApplyRules(text, rules[..k], gate)
    {
      assert rules[..k + 1][..k] == rules[..k];
      if gate(k) {
        result := ReplaceWord(result, rules[k].word, rules[k].replacement);
      }
    }
    assert rules[..|rules|] == rules;
  }

  // ---------------------------------------------------------------------------
  // worked rewrites
  // ---------------------------------------------------------------------------

  /** The first contraction rewrites a whole-word "do not". */
  lemma ContractionExample()
    ensures Contractions[0] == Rule("do not", "don't")
    ensures ReplaceWord("I do not know", "do not", "don't") == "I don't know"
  {
    ReplaceWordSingle("I do not know", "do not", "don't", 2);
  }

  /** "do not" spread over two words is not a match ("Undo" is one word). */
  lemma WordBoundaryExample()
    ensures ReplaceWord("Undo nothing", "do not", "don't") == "Undo nothing"
  {
    ReplaceWordNoMatch("Undo nothing", "do not", "don't");
  }

  /** The `i` flag: upper-case text matches, and the replacement is written
      as it stands in the table. */
  lemma CaseExample()
    ensures ReplaceWord("DO NOT stop", "do not", "don't") == "don't stop"
  {
    ReplaceWordSingle("DO NOT stop", "do not", "don't", 0);
  }

  lemma CasualExample()
    ensures CasualReplacements[0] == Rule("utilize", "use")
    ensures ReplaceWord("We utilize this", "utilize", "use") == "We use this"
  {
    ReplaceWordSingle("We utilize this", "utilize", "use", 3);
  }

  /** The informal-spelling table searches for the formal phrase. */
  lemma TypoExample()
    ensures InformalSpellings[1] == Rule("going to", "gonna")
    ensures ReplaceWord("I am going to", "going to", "gonna") == "I am gonna"
  {
    assert MatchAt("I am going to", "going to", 5);
    forall m | 0 <= m < 13 && m != 5
      ensures !MatchAt("I am going to", "going to", m)
    {
      if m < 5 {
        assert !SameIgnoringCase("I am going to"[m + 0], "going to"[0]);
      }
    }
    ReplaceWordSingle("I am going to", "going to", "gonna", 5);
  }

  // ---------------------------------------------------------------------------
  // injection stages
  // ---------------------------------------------------------------------------

  /** The shared `map` of the three prefixing stages: an eligible, chosen piece
      becomes `phrase + " " + piece.toLowerCase()`; every other piece is kept. */
  function Inject(pieces: seq<string>, draw: nat -> Draw, eligible: nat -> bool, phrases: seq<string>): (r: seq<string>)
    requires phrases != []
    ensures |r| == |pieces|
    ensures forall i :: 0 <= i < |pieces| ==>
      r[i] == if eligible(i) && draw(i).chosen then Pick(phrases, draw(i).pick) + " " + Lower(pieces[i]) else pieces[i]
  {
    seq(|pieces|, i requires 0 <= i < |pieces| =>
      if eligible(i) && draw(i).chosen then Pick(phrases, draw(i).pick) + " " + Lower(pieces[i]) else pieces[i])
  }

  /** Personal touches: only the first three sentences are eligible. */
  function TouchSentences(sentences: seq<string>, draw: nat -> Draw): (r: seq<string>)
    ensures |r| == |sentences|
    ensures forall i :: 3 <= i < |r| ==> r[i] == sentences[i]
    ensures forall i :: 0 <= i < |r| && !draw(i).chosen ==> r[i] == sentences[i]
    ensures forall i :: 0 <= i < |r| && i < 3 && draw(i).chosen ==>
      r[i] == Pick(PersonalTouches, draw(i).pick) + " " + Lower(sentences[i])
  {
    Inject(sentences, draw, (i: nat) => i < 3, PersonalTouches)
  }

  /** Personal experiences: every paragraph but the first is eligible. */
  function ExperienceParagraphs(paragraphs: seq<string>, draw: nat -> Draw): (r: seq<string>)
    ensures |r| == |paragraphs|
    ensures |r| > 0 ==> r[0] == paragraphs[0]
    ensures forall i :: 0 <= i < |r| && !draw(i).chosen ==> r[i] == paragraphs[i]
    ensures forall i :: 0 < i < |r| && draw(i).chosen ==>
      r[i] == Pick(PersonalExperiences, draw(i).pick) + " " + Lower(paragraphs[i])
  {
    Inject(paragraphs, draw, (i: nat) => i > 0, PersonalExperiences)
  }

  /** Emotional phrases: every sentence after the first two is eligible. */
  function EmotionSentences(sentences: seq<string>, draw: nat -> Draw): (r: seq<string>)
    ensures |r| == |sentences|
    ensures forall i :: 0 <= i < |r| && i < 2 ==> r[i] == sentences[i]
    ensures forall i :: 0 <= i < |r| && !draw(i).chosen ==> r[i] == sentences[i]
    ensures forall i :: 1 < i < |r| && draw(i).chosen ==>
      r[i] == Pick(Emotions, draw(i).pick) + " " + Lower(sentences[i])
  {
    Inject(sentences, draw, (i: nat) => i > 1, Emotions)
  }

  function PersonalTouchStage(text: string, draw: nat -> Draw): string
  {
    Join(TouchSentences(Split(text, SentenceSep), draw), SentenceSep)
  }

  function ExperienceStage(text: string, draw: nat -> Draw): string
  {
    Join(ExperienceParagraphs(Split(text, ParagraphSep), draw), ParagraphSep)
  }

  function EmotionStage(text: string, draw: nat -> Draw): string
  {
    Join(EmotionSentences(Split(text, SentenceSep), draw), SentenceSep)
  }

  /** A prefixing stage that chooses no piece gives its input back. */
  lemma InjectNoneChosen(text: string, sep: string, draw: nat -> Draw, eligible: nat -> bool, phrases: seq<string>)
    requires sep != [] && phrases != []
    requires forall i :: !draw(i).chosen
    ensures Join(Inject(Split(text, sep), draw, eligible, phrases), sep) == text
  {
    var pieces := Split(text, sep);
    assert Inject(pieces, draw, eligible, phrases) == pieces;
    JoinSplit(text, sep);
  }

  /** On the empty text the personal-touch stage still sees one (empty)
      sentence, so a chosen slot turns `""` into `phrase + " "`. */
  lemma PersonalTouchOnEmpty(draw: nat -> Draw)
    ensures PersonalTouchStage("", draw) ==
      if draw(0).chosen then Pick(PersonalTouches, draw(0).pick) + " " else ""
  {
    assert Split("", SentenceSep) == [""];
  }

  // ---------------------------------------------------------------------------
  // filler stage
  // ---------------------------------------------------------------------------

  /** `Math.floor(Math.random() * (words.length - 1)) + 1`: at least 1, below
      the last word when there are several, and 1 for a one-word sentence. */
  function FillerPosition(wordCount: nat, r: nat): (p: nat)
    requires wordCount >= 1
    ensures 1 <= p
    ensures wordCount == 1 ==> p == 1
    ensures wordCount > 1 ==> p <= wordCount - 1
  {
    (if wordCount - 1 == 0 then 0 else r % (wordCount - 1)) + 1
  }

  /** `words.splice(p, 0, filler + ',')` on the sentence's words, re-joined. */
  function InsertFiller(sentence: string, filler: string, at: nat): string
  {
    var words := Split(sentence, " ");
    var p := FillerPosition(|words|, at);
    Join(words[..p] + [filler + ","] + words[p..], " ")
  }

  /** Where the filler lands: the end of the `p`-th word of the sentence. */
  function FillerOffset(sentence: string, at: nat): nat
  {
    var words := Split(sentence, " ");
    |Join(words[..FillerPosition(|words|, at)], " ")|
  }

  lemma {:induction false} JoinStartsWithFirst(parts: seq<string>, sep: string)
    requires parts != []
    ensures |parts[0]| <= |Join(parts, sep)| && Join(parts, sep)[..|parts[0]|] == parts[0]
  {
    if |parts| > 1 {
      assert Join(parts, sep) == parts[0] + (sep + Join(parts[1..], sep));
    }
  }

  /** The filler stage inserts exactly one `" " + filler + ","` into the
      sentence, at a word boundary after the first word, and changes nothing
      else. */
  lemma FillerInsertion(sentence: string, filler: string, at: nat)
    ensures var words := Split(sentence, " ");
      var k := FillerOffset(sentence, at);
      && |words[0]| <= k <= |sentence|
      && sentence[..|words[0]|] == words[0]
      && (k < |sentence| ==> sentence[k] == ' ')
      && InsertFiller(sentence, filler, at) == sentence[..k] + " " + filler + "," + sentence[k..]
  {
    var words := Split(sentence, " ");
    var p := FillerPosition(|words|, at);
    JoinSplit(sentence, " ");
    JoinInsert(words, p, filler + ",", " ");
    JoinStartsWithFirst(words[..p], " ");
    assert words[..p][0] == words[0];
  }

  /** Filler words: any chosen sentence gets one filler, the others are kept. */
  function FillerSentences(sentences: seq<string>, draw: nat -> FillerDraw): (r: seq<string>)
    ensures |r| == |sentences|
    ensures forall i :: 0 <= i < |r| && !draw(i).chosen ==> r[i] == sentences[i]
    ensures forall i :: 0 <= i < |r| && draw(i).chosen ==>
      r[i] == InsertFiller(sentences[i], Pick(FillerWords, draw(i).pick), draw(i).at)
  {
    seq(|sentences|, i requires 0 <= i < |sentences| =>
      if draw(i).chosen then InsertFiller(sentences[i], Pick(FillerWords, draw(i).pick), draw(i).at)
      else sentences[i])
  }

  function FillerStage(text: string, draw: nat -> FillerDraw): string
  {
    Join(FillerSentences(Split(text, SentenceSep), draw), SentenceSep)
  }

  // ---------------------------------------------------------------------------
  // the pipeline
  // ---------------------------------------------------------------------------

  /** The two deterministic stages. */
  function Lexical(text: string, o: HumanizerOptions): string
  {
    var t1 := if NotFalse(o.addContractions) then ApplyRules(text, Contractions, Always) else text;
    if NotFalse(o.addCasualLanguage) then ApplyRules(t1, CasualReplacements, Always) else t1
  }

  /** The stages that follow the lexical ones, in the order they run. */
  datatype Step = Touch | Experience | Filler | Emote | Typo

  /** One post-lexical stage, applied when its flag is `true`. */
  function Apply(step: Step, t: string, o: HumanizerOptions, c: Chance): string
  {
    match step
    case Touch => if Truthy(o.addPersonalTouch) then PersonalTouchStage(t, c.touch) else t
    case Experience => if Truthy(o.addPersonalExperiences) then ExperienceStage(t, c.experience) else t
    case Filler => if Truthy(o.addFillerWords) then FillerStage(t, c.filler) else t
    case Emote => if Truthy(o.addEmotions) then EmotionStage(t, c.emotion) else t
    case Typo => if Truthy(o.addTypos) then ApplyRules(t, InformalSpellings, c.typo) else t
  }

  /** `humanizeText(text, options)` under the random outcomes `c`. */
  function Humanized(text: string, o: HumanizerOptions, c: Chance): string
  {
    Apply(Typo, Apply(Emote, Apply(Filler, Apply(Experience, Apply(Touch, Lexical(text, o), o, c), o, c), o, c), o, c), o, c)
  }

  /** The two table-driven rewrites at the head of `humanizeText`. */
  method RewriteLexical(text: string, options: HumanizerOptions) returns (humanized: string)
    ensures humanized == Lexical(text, options)
  {
    humanized := text;
    if NotFalse(options.addContractions) {
      humanized := RewriteEach(humanized, Contractions, Always);
    }
    if NotFalse(options.addCasualLanguage) {
      humanized := RewriteEach(humanized, CasualReplacements, Always);
    }
  }

  /** `humanizeText`: one running text threaded through the enabled stages. */
  method HumanizeText(text: string, options: HumanizerOptions, c: Chance) returns (humanized: string)
    ensures humanized == Humanized(text, options, c)
  {
    humanized := RewriteLexical(text, options);
    ghost var t := Lexical(text, options);
    if Truthy(options.addPersonalTouch) {
      humanized := PersonalTouchStage(humanized, c.touch);
    }
    t := Apply(Touch, t, options, c);
    assert humanized == t;
    if Truthy(options.addPersonalExperiences) {
      humanized := ExperienceStage(humanized, c.experience);
    }
    t := Apply(Experience, t, options, c);
    assert humanized == t;
    if Truthy(options.addFillerWords) {
      humanized := FillerStage(humanized, c.filler);
    }
    t := Apply(Filler, t, options, c);
    assert humanized == t;
    if Truthy(options.addEmotions) {
      humanized := EmotionStage(humanized, c.emotion);
    }
    t := Apply(Emote, t, options, c);
    assert humanized == t;
    if Truthy(options.addTypos) {
      humanized := RewriteEach(humanized, InformalSpellings, c.typo);
    }
  }

  /** Every flag explicitly `false`: the text comes back unchanged. */
  lemma AllOffIsIdentity(text: string, c: Chance)
    ensures Humanized(text, HumanizerOptions(Some(false), Some(false), Some(false), Some(false),
                                             Some(false), Some(false), Some(false)), c) == text
  {
  }

  /** Text in which no contraction and no casual-table word occurs as a whole
      word leaves the lexical stages unchanged, whatever the flags. */
  lemma LexicalNoMatch(text: string, o: HumanizerOptions)
    requires NoWholeWord(text, Contractions) && NoWholeWord(text, CasualReplacements)
    ensures Lexical(text, o) == text
  {
    ApplyRulesNoMatch(text, Contractions, Always);
    ApplyRulesNoMatch(text, CasualReplacements, Always);
  }

  /** When no random slot fires, the whole pipeline is just the lexical
      stages: every split stage re-joins its pieces unchanged. */
  lemma NothingDrawnIsLexical(text: string, o: HumanizerOptions, c: Chance)
    requires forall i :: !c.touch(i).chosen
    requires forall i :: !c.experience(i).chosen
    requires forall i :: !c.filler(i).chosen
    requires forall i :: !c.emotion(i).chosen
    requires forall k :: !c.typo(k)
    ensures Humanized(text, o, c) == Lexical(text, o)
  {
    var t := Lexical(text, o);
    InjectNoneChosen(t, SentenceSep, c.touch, (i: nat) => i < 3, PersonalTouches);
    InjectNoneChosen(t, ParagraphSep, c.experience, (i: nat) => i > 0, PersonalExperiences);
    var pieces := Split(t, SentenceSep);
    assert FillerSentences(pieces, c.filler) == pieces;
    JoinSplit(t, SentenceSep);
    InjectNoneChosen(t, SentenceSep, c.emotion, (i: nat) => i > 1, Emotions);
    ApplyRulesClosed(t, InformalSpellings, c.typo);
  }

  // ---------------------------------------------------------------------------
  // profiles
  // ---------------------------------------------------------------------------

  datatype Profile = Subtle | Moderate | Heavy | Professional | Casual

  function Flags(touch: bool, typos: bool, contractions: bool, filler: bool, emotions: bool,
                 experiences: bool, casual: bool): HumanizerOptions
  {
    HumanizerOptions(Some(touch), Some(typos), Some(contractions), Some(filler), Some(emotions),
                     Some(experiences), Some(casual))
  }

  /** `humanizationProfiles[name]`. */
  function ProfileOptions(p: Profile): (o: HumanizerOptions)
    ensures o.addPersonalTouch != None && o.addTypos != None && o.addContractions != None
      && o.addFillerWords != None && o.addEmotions != None && o.addPersonalExperiences != None
      && o.addCasualLanguage != None
    ensures o.addContractions == o.addCasualLanguage
    ensures o.addPersonalTouch == Some(true) <==> p != Subtle
  {
    match p
    case Subtle       => Flags(false, false, true, false, false, false, true)
    case Moderate     => Flags(true, false, true, true, false, false, true)
    case Heavy        => Flags(true, true, true, true, true, true, true)
    case Professional => Flags(true, false, false, false, false, true, false)
    case Casual       => Flags(true, true, true, true, true, true, true)
  }

  /** The subtle profile runs only the two lexical stages, so its output does
      not depend on any random outcome. */
  lemma SubtleIsLexicalOnly(text: string, c: Chance)
    ensures Humanized(text, ProfileOptions(Subtle), c) == Lexical(text, ProfileOptions(Subtle))
    ensures Lexical(text, ProfileOptions(Subtle)) ==
      ApplyRules(ApplyRules(text, Contractions, Always), CasualReplacements, Always)
  {
  }

  /** The professional profile switches both lexical stages off. */
  lemma ProfessionalSkipsLexical(text: string)
    ensures Lexical(text, ProfileOptions(Professional)) == text
  {
  }

  /** `quickHumanize(text, profile = 'moderate')`. */
  method QuickHumanize(text: string, c: Chance, profile: Profile := Moderate) returns (humanized: string)
    ensures humanized == Humanized(text, ProfileOptions(profile), c)
  {
    humanized := HumanizeText(text, ProfileOptions(profile), c);
  }
}
