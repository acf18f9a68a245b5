/** The prompt sent to the completion service: `generatePrompt` in src/App.jsx.

    The template's constant text is kept verbatim, including the line breaks and the
    indentation that the template literal carries. The theorems about the prompt are
    proved for any `Wording` of the template's shape (`WellFormed`) and then stated
    for the source's own wording, `Texts`, which has that shape (`TextsWellFormed`). */
module PromptBuilder {
  import opened Text
  import opened Form

  /** The constant pieces of the template, in the order they appear in the prompt. */
  datatype Wording = Wording(
    intro: string,         // from the opening line to the offer text
    aboutMe: string,       // between the offer text and the name
    phoneLabel: string,    // between the name and the phone slot
    noPhone: string,       // the phone slot when no phone number was given
    instructions: string,  // from the phone slot to the end of the template literal
    quote: string,         // appended when a quote ("Devis") is asked for
    call: string)          // appended when a call ("Appel") is asked for

  // The source's wording. Each piece is a sum of short named parts, so that facts
  // about single characters can be established one short part at a time.

  const IntroPart1: string := "J'ai reçu une offre de "
  const IntroPart2: string := "travail que je souhaite que "
  const IntroPart3: string := "tu analyses et auxquelles "
  const IntroPart4: string := "tu répondes. Voici les "
  const IntroPart5: string := "détails :\n\n    Offre : "
  const Intro: string :=
    IntroPart1 + IntroPart2 + IntroPart3 + IntroPart4 + IntroPart5

  const AboutMePart1: string := "\n\n    Voici aussi des "
  const AboutMePart2: string := "informations sur moi :\n    "
  const AboutMePart3: string := "Mon nom : "
  const AboutMe: string :=
    AboutMePart1 + AboutMePart2 + AboutMePart3

  const PhoneLabelPart1: string := "\n    Numéro de téléphone "
  const PhoneLabelPart2: string := "pour la communication : "
  const PhoneLabel: string :=
    PhoneLabelPart1 + PhoneLabelPart2

  const NoPhone: string := "Non renseigné"

  /** The line break and indentation that close the template literal. */
  const ClosingIndent: string := "\n    "

  const InstructionsPart1: string := "\n    \n    S'il te plaît, "
  const InstructionsPart2: string := "élabore une réponse "
  const InstructionsPart3: string := "professionnelle et "
  const InstructionsPart4: string := "engageante, en montrant de "
  const InstructionsPart5: string := "l'intérêt pour le projet, "
  const InstructionsPart6: string := "en partageant mes "
  const InstructionsPart7: string := "compétences et mon "
  const InstructionsPart8: string := "expérience pertinentes, en "
  const InstructionsPart9: string := "posant des questions pour "
  const InstructionsPart10: string := "mieux comprendre le projet.\n"
  const InstructionsPart11: string := "    Utilise mes "
  const InstructionsPart12: string := "informations en fin de "
  const InstructionsPart13: string := "réponse seulement. Tu peux "
  const InstructionsPart14: string := "commencer en lui disant "
  const InstructionsPart15: string := "bonjour et en le remerciant "
  const InstructionsPart16: string := "pour son offre.\n    "
  const InstructionsPart17: string := "Ensuite, tu peux lui dire "
  const InstructionsPart18: string := "que tu es intéressé par son "
  const InstructionsPart19: string := "offre et que tu "
  const Instructions: string :=
    InstructionsPart1 + InstructionsPart2 + InstructionsPart3 + InstructionsPart4
    + InstructionsPart5 + InstructionsPart6 + InstructionsPart7 + InstructionsPart8
    + InstructionsPart9 + InstructionsPart10 + InstructionsPart11 + InstructionsPart12
    + InstructionsPart13 + InstructionsPart14 + InstructionsPart15 + InstructionsPart16
    + InstructionsPart17 + InstructionsPart18 + InstructionsPart19 + ClosingIndent

  const QuoteStart: string := "Propose lui d'établir "
  const QuoteMiddle: string := "directement un devis si mon "
  const QuoteEnd: string := "profil lui convient."
  const QuoteClause: string := QuoteStart + QuoteMiddle + QuoteEnd

  const CallStart: string := "Propose lui un appel en lui "
  const CallPart2: string := "indiquant mon "
  const PhoneMention: string := "numéro de téléphone"
  const CallPart4: string := " afin d'obtenir "
  const CallPart5: string := "plus de renseignement. "
  const CallPart6: string := "Donne-lui également "
  const SlotsMention: string := "deux disponibilités"
  const CallEnd: string := " pour un rendez-vous."
  const CallClause: string :=
    CallStart + CallPart2 + PhoneMention + CallPart4 + CallPart5 + CallPart6 + SlotsMention
    + CallEnd

  const Texts: Wording :=
    Wording(Intro, AboutMe, PhoneLabel, NoPhone, Instructions, QuoteClause, CallClause)

  /** A clause appended to the template: a single line that neither starts nor ends
      with a space. */
  predicate SingleLine(c: string) {
    c != [] && c[0] != ' ' && c[|c| - 1] != ' ' && '\n' !in c
  }

  /** The shape of the template the theorems below rely on: the template closes with
      a line break and its indentation, the clauses are single lines that differ in
      their next-to-last character, and neither clause is a piece of the other. */
  predicate WellFormed(w: Wording) {
    && EndsWith(w.instructions, ClosingIndent)
    && SingleLine(w.quote) && SingleLine(w.call)
    && |w.quote| >= 2 && |w.call| >= 2
    && w.quote[|w.quote| - 2] != w.call[|w.call| - 2]
    && !Contains(w.quote, w.call) && !Contains(w.call, w.quote)
  }

  /** The phone slot: the phone number when one was typed, the placeholder otherwise
      (an empty field is falsy). */
  function Slot(w: Wording, tel: string): string {
    if tel != "" then tel else w.noPhone
  }

  /** The template literal with the three fields filled in. */
  function Base(w: Wording, d: FormData): string {
    w.intro + d.offer + w.aboutMe + d.name + w.phoneLabel + Slot(w, d.tel) + w.instructions
  }

  /** The clause chosen by the kind of reply; none for any other value. */
  function Branch(w: Wording, offerType: string): string {
    if offerType == Quote then w.quote
    else if offerType == Call then w.call
    else ""
  }

  /** The prompt built from a wording: the filled template followed by the chosen clause. */
  function PromptOf(w: Wording, d: FormData): string {
    Base(w, d) + Branch(w, d.offerType)
  }

  /** The prompt the source builds. */
  function Prompt(d: FormData): string {
    PromptOf(Texts, d)
  }

  /** `generatePrompt`, for a given wording: starts from the filled template and
      extends it in place with the chosen clause. */
  method GeneratePrompt(w: Wording, d: FormData) returns (prompt: string)
    ensures prompt == PromptOf(w, d)
  {
    prompt := Base(w, d);
    if d.offerType == Quote {
      prompt := prompt + w.quote;
    } else if d.offerType == Call {
      prompt := prompt + w.call;
    }
  }

  // ---------------------------------------------------------------------------
  // What the theorems state, for a wording `w` and the form's values `d`.

  /** The prompt opens with the fixed preamble and carries the offer text, the name and
      the phone slot verbatim at their places, each between the pieces of the template
      around it. */
  predicate FieldsInPlace(w: Wording, d: FormData) {
    var p := PromptOf(w, d);
    && w.intro <= p
    && OccursAt(p, d.offer, |w.intro|)
    && OccursAt(p, w.aboutMe, |w.intro| + |d.offer|)
    && OccursAt(p, d.name, |w.intro| + |d.offer| + |w.aboutMe|)
    && OccursAt(p, w.phoneLabel, |w.intro| + |d.offer| + |w.aboutMe| + |d.name|)
    && OccursAt(p, Slot(w, d.tel), |w.intro| + |d.offer| + |w.aboutMe| + |d.name| + |w.phoneLabel|)
    && (d.tel != "" ==> Slot(w, d.tel) == d.tel)
    && (d.tel == "" ==> Slot(w, d.tel) == w.noPhone)
    && OccursAt(p, w.instructions,
         |w.intro| + |d.offer| + |w.aboutMe| + |d.name| + |w.phoneLabel| + |Slot(w, d.tel)|)
  }

  /** The prompt ends with the quote clause exactly when a quote was asked for, and with
      the call clause exactly when a call was asked for. */
  predicate EndingsMatch(w: Wording, d: FormData) {
    && (EndsWith(PromptOf(w, d), w.quote) <==> d.offerType == Quote)
    && (EndsWith(PromptOf(w, d), w.call) <==> d.offerType == Call)
  }

  /** The prompt is the filled template followed by the quote clause and ends with it,
      not with the call clause; the call clause occurs in it only where it occurs in
      the filled template, which is the same for every kind of reply. */
  predicate QuoteOnly(w: Wording, d: FormData) {
    var p := PromptOf(w, d);
    && p == Base(w, d) + w.quote
    && EndsWith(p, w.quote) && !EndsWith(p, w.call)
    && (Contains(p, w.call) <==> Contains(Base(w, d), w.call))
  }

  /** The same for the call clause. */
  predicate CallOnly(w: Wording, d: FormData) {
    var p := PromptOf(w, d);
    && p == Base(w, d) + w.call
    && EndsWith(p, w.call) && !EndsWith(p, w.quote)
    && (Contains(p, w.quote) <==> Contains(Base(w, d), w.quote))
  }

  /** The prompt is the filled template alone and ends with neither clause. */
  predicate NoClause(w: Wording, d: FormData) {
    var p := PromptOf(w, d);
    && p == Base(w, d)
    && !EndsWith(p, w.quote) && !EndsWith(p, w.call)
  }

  /** The character `c` appears nowhere in the fixed text of the template. */
  predicate FixedTextLacks(w: Wording, c: char) {
    && c !in w.intro && c !in w.aboutMe && c !in w.phoneLabel && c !in w.noPhone
    && c !in w.instructions
  }

  /** The character `c` appears in none of the typed values the prompt carries. */
  predicate FieldsLack(d: FormData, c: char) {
    c !in d.offer && c !in d.name && c !in d.tel
  }

  // ---------------------------------------------------------------------------
  // Theorems for any wording.

  /** Where each field lands in the prompt. */
  lemma LayoutOf(w: Wording, d: FormData)
    ensures FieldsInPlace(w, d)
  {
    Layout(w.intro, d.offer, w.aboutMe, d.name, w.phoneLabel, Slot(w, d.tel),
           w.instructions, Branch(w, d.offerType));
  }

  /** The filled template is a prefix of the prompt, and the prompt adds to it exactly
      the clause the kind of reply chooses. */
  lemma BranchesOf(w: Wording, d: FormData)
    ensures Base(w, d) <= PromptOf(w, d)
    ensures d.offerType == Quote ==> PromptOf(w, d) == Base(w, d) + w.quote
    ensures d.offerType == Call ==> PromptOf(w, d) == Base(w, d) + w.call
    ensures d.offerType != Quote && d.offerType != Call ==> PromptOf(w, d) == Base(w, d)
  {
    var b, c := Base(w, d), Branch(w, d.offerType);
    assert (b + c)[..|b|] == b;
  }

  /** The filled template ends with the closing line break and indentation. */
  lemma BaseEnding(w: Wording, d: FormData)
    requires WellFormed(w)
    ensures var b := Base(w, d);
      && |b| >= 5 && b[|b| - 5] == '\n'
      && forall k :: |b| - 5 < k < |b| ==> b[k] == ' '
  {
    var b := Base(w, d);
    var rest := w.intro + d.offer + w.aboutMe + d.name + w.phoneLabel + Slot(w, d.tel);
    EndsWithAppend(rest, w.instructions, ClosingIndent);
    assert b[|b| - 5..] == ClosingIndent;
    assert forall k :: |b| - 5 <= k < |b| ==> b[k] == ClosingIndent[k - (|b| - 5)];
  }

  /** The endings of the prompt, for any wording of the template's shape. */
  lemma EndingsOf(w: Wording, d: FormData)
    requires WellFormed(w)
    ensures EndingsMatch(w, d)
  {
    var b, p := Base(w, d), PromptOf(w, d);
    BranchesOf(w, d);
    if d.offerType == Quote {
      assert p[|p| - 2] == w.quote[|w.quote| - 2];
      EndsDiffer(p, w.call, 2);
    } else if d.offerType == Call {
      assert p[|p| - 2] == w.call[|w.call| - 2];
      EndsDiffer(p, w.quote, 2);
    } else {
      BaseEnding(w, d);
      EndsDiffer(p, w.quote, 1);
      EndsDiffer(p, w.call, 1);
    }
  }

  /** No occurrence of a clause runs from the filled template into the appended
      clause: a clause is a single line not starting with a space, and the template
      ends with a line break and spaces. */
  lemma {:induction false} ClauseOccurrenceOf(w: Wording, d: FormData, clause: string)
    requires WellFormed(w)
    requires clause == w.quote || clause == w.call
    ensures Contains(PromptOf(w, d), clause) <==>
      Contains(Base(w, d), clause) || Contains(Branch(w, d.offerType), clause)
  {
    BaseEnding(w, d);
    var b := Base(w, d);
    AcrossBoundary(b, Branch(w, d.offerType), clause, |b| - 5);
  }

  /** With a quote asked for, the prompt contains the call clause only where the
      filled template does. */
  lemma QuoteExcludesCallOf(w: Wording, d: FormData)
    requires WellFormed(w) && d.offerType == Quote
    ensures Contains(PromptOf(w, d), w.call) <==> Contains(Base(w, d), w.call)
  {
    ClauseOccurrenceOf(w, d, w.call);
  }

  /** With a call asked for, the prompt contains the quote clause only where the
      filled template does. */
  lemma CallExcludesQuoteOf(w: Wording, d: FormData)
    requires WellFormed(w) && d.offerType == Call
    ensures Contains(PromptOf(w, d), w.quote) <==> Contains(Base(w, d), w.quote)
  {
    ClauseOccurrenceOf(w, d, w.quote);
  }

  /** The filled template lacks any character that neither its fixed text nor the
      typed values have. */
  lemma BaseLacks(w: Wording, d: FormData, c: char)
    requires FixedTextLacks(w, c) && FieldsLack(d, c)
    ensures c !in Base(w, d)
  {
  }

  /** With a quote asked for, the call clause does not occur in the prompt at all when
      its first character is absent from the fixed text and from the typed values. */
  lemma QuoteLacksCallOf(w: Wording, d: FormData)
    requires WellFormed(w) && d.offerType == Quote
    requires FixedTextLacks(w, w.call[0]) && FieldsLack(d, w.call[0])
    ensures !Contains(PromptOf(w, d), w.call)
  {
    BaseLacks(w, d, w.call[0]);
    MissingChar(Base(w, d), w.call, w.call[0]);
    QuoteExcludesCallOf(w, d);
  }

  /** With a call asked for, the quote clause does not occur in the prompt at all when
      its first character is absent from the fixed text and from the typed values. */
  lemma CallLacksQuoteOf(w: Wording, d: FormData)
    requires WellFormed(w) && d.offerType == Call
    requires FixedTextLacks(w, w.quote[0]) && FieldsLack(d, w.quote[0])
    ensures !Contains(PromptOf(w, d), w.quote)
  {
    BaseLacks(w, d, w.quote[0]);
    MissingChar(Base(w, d), w.quote, w.quote[0]);
    CallExcludesQuoteOf(w, d);
  }

  /** The quote branch for any wording of the template's shape. */
  lemma QuoteBranchOf(w: Wording, d: FormData)
    requires WellFormed(w) && d.offerType == Quote
    ensures QuoteOnly(w, d)
  {
    BranchesOf(w, d);
    EndingsOf(w, d);
    QuoteExcludesCallOf(w, d);
  }

  /** The call branch for any wording of the template's shape. */
  lemma CallBranchOf(w: Wording, d: FormData)
    requires WellFormed(w) && d.offerType == Call
    ensures CallOnly(w, d)
  {
    BranchesOf(w, d);
    EndingsOf(w, d);
    CallExcludesQuoteOf(w, d);
  }

  /** The remaining branch for any wording of the template's shape. */
  lemma OtherBranchOf(w: Wording, d: FormData)
    requires WellFormed(w) && d.offerType != Quote && d.offerType != Call
    ensures NoClause(w, d)
  {
    BranchesOf(w, d);
    EndingsOf(w, d);
  }

  // ---------------------------------------------------------------------------
  // The source's wording has the shape.

  lemma QuoteStartShape()
    ensures QuoteStart[0] == 'P' && '\n' !in QuoteStart
  {
  }

  lemma QuoteMiddleShape()
    ensures '\n' !in QuoteMiddle && QuoteMiddle[4] == 'c'
  {
  }

  lemma QuoteEndShape()
    ensures '\n' !in QuoteEnd && |QuoteEnd| == 20 && QuoteEnd[18] == 't' && QuoteEnd[19] == '.'
  {
  }

  /** The quote clause is a single line with a 'c' in it. */
  lemma QuoteClauseShape()
    ensures SingleLine(QuoteClause) && 'c' in QuoteClause && QuoteClause[0] == 'P'
    ensures |QuoteClause| == 70 && QuoteClause[68] == 't'
  {
    QuoteStartShape();
    QuoteMiddleShape();
    QuoteEndShape();
    AppendEnds(QuoteStart, QuoteMiddle, QuoteEnd);
  }

  lemma CallStartShape()
    ensures CallStart[0] == 'P' && '\n' !in CallStart && 'c' !in CallStart
  {
  }

  lemma CallPart2Shape()
    ensures '\n' !in CallPart2 && 'c' !in CallPart2
  {
  }

  lemma PhoneMentionShape()
    ensures '\n' !in PhoneMention && 'c' !in PhoneMention
  {
  }

  lemma CallPart4Shape()
    ensures '\n' !in CallPart4 && 'c' !in CallPart4
  {
  }

  lemma CallPart5Shape()
    ensures '\n' !in CallPart5 && 'c' !in CallPart5
  {
  }

  lemma CallPart6Shape()
    ensures '\n' !in CallPart6 && 'c' !in CallPart6
  {
  }

  lemma SlotsMentionShape()
    ensures '\n' !in SlotsMention && 'c' !in SlotsMention
  {
  }

  lemma CallEndShape()
    ensures '\n' !in CallEnd && 'c' !in CallEnd && |CallEnd| == 21
    ensures CallEnd[19] == 's' && CallEnd[20] == '.'
  {
  }

  /** The call clause is a single line without any 'c'. */
  lemma CallClauseShape()
    ensures SingleLine(CallClause) && 'c' !in CallClause && CallClause[0] == 'P'
    ensures |CallClause| == 160 && CallClause[158] == 's'
  {
    CallStartShape();
    CallPart2Shape();
    PhoneMentionShape();
    CallPart4Shape();
    CallPart5Shape();
    CallPart6Shape();
    SlotsMentionShape();
    CallEndShape();
    var front := CallStart + CallPart2 + PhoneMention + CallPart4 + CallPart5 + CallPart6;
    AppendEnds(front, SlotsMention, CallEnd);
  }

  /** The call clause asks to give the phone number and two appointment slots. */
  lemma CallClauseMentions()
    ensures Contains(CallClause, "numéro de téléphone")
    ensures Contains(CallClause, "deux disponibilités")
  {
    var p2 := CallStart + CallPart2;
    var p3 := p2 + PhoneMention;
    var p4 := p3 + CallPart4;
    var p5 := p4 + CallPart5;
    var p6 := p5 + CallPart6;
    var p7 := p6 + SlotsMention;
    assert CallClause == p7 + CallEnd;
    PrefixOfPrefix(p7, CallEnd, CallClause);
    PrefixOfPrefix(p6, SlotsMention, CallClause);
    PrefixOfPrefix(p5, CallPart6, CallClause);
    PrefixOfPrefix(p4, CallPart5, CallClause);
    PrefixOfPrefix(p3, CallPart4, CallClause);
    assert OccursAt(p7, SlotsMention, |p6|);
    assert OccursAt(p3, PhoneMention, |p2|);
    OccursInPrefix(CallClause, p7, SlotsMention, |p6|);
    OccursInPrefix(CallClause, p3, PhoneMention, |p2|);
  }

  /** Neither clause is a piece of the other: the call clause is the longer one, and
      the quote clause has a character (the 'c' of "directement") it lacks. */
  lemma ClausesDistinct()
    ensures !Contains(QuoteClause, CallClause)
    ensures !Contains(CallClause, QuoteClause)
  {
    QuoteClauseShape();
    CallClauseShape();
    TooShort(QuoteClause, CallClause);
    MissingChar(CallClause, QuoteClause, 'c');
  }

  // The fixed text of the template has no capital 'P', the first letter of both clauses.

  lemma IntroOpeningLacksP()
    ensures 'P' !in IntroPart1 && 'P' !in IntroPart2 && 'P' !in IntroPart3
  {
  }

  lemma IntroClosingLacksP()
    ensures 'P' !in IntroPart4 && 'P' !in IntroPart5
  {
  }

  lemma IntroLacksP()
    ensures 'P' !in Intro
  {
    IntroOpeningLacksP();
    IntroClosingLacksP();
  }

  lemma AboutMeLacksP()
    ensures 'P' !in AboutMe && 'P' !in NoPhone
  {
  }

  lemma PhoneLabelLacksP()
    ensures 'P' !in PhoneLabel
  {
  }

  lemma InstructionsOpeningLacksP()
    ensures 'P' !in InstructionsPart1 && 'P' !in InstructionsPart2
    ensures 'P' !in InstructionsPart3 && 'P' !in InstructionsPart4
  {
  }

  lemma InstructionsSkillsLacksP()
    ensures 'P' !in InstructionsPart5 && 'P' !in InstructionsPart6
    ensures 'P' !in InstructionsPart7 && 'P' !in InstructionsPart8
  {
  }

  lemma InstructionsQuestionsLacksP()
    ensures 'P' !in InstructionsPart9 && 'P' !in InstructionsPart10
    ensures 'P' !in InstructionsPart11 && 'P' !in InstructionsPart12
  {
  }

  lemma InstructionsGreetingLacksP()
    ensures 'P' !in InstructionsPart13 && 'P' !in InstructionsPart14
    ensures 'P' !in InstructionsPart15 && 'P' !in InstructionsPart16
  {
  }

  lemma InstructionsClosingLacksP()
    ensures 'P' !in InstructionsPart17 && 'P' !in InstructionsPart18
    ensures 'P' !in InstructionsPart19 && 'P' !in ClosingIndent
  {
  }

  lemma InstructionsLacksP()
    ensures 'P' !in Instructions
  {
    InstructionsOpeningLacksP();
    InstructionsSkillsLacksP();
    InstructionsQuestionsLacksP();
    InstructionsGreetingLacksP();
    InstructionsClosingLacksP();
  }

  /** Both clauses open with a 'P' that the fixed text of the template lacks. */
  lemma TextsLackP()
    ensures FixedTextLacks(Texts, 'P') && Texts.quote[0] == 'P' && Texts.call[0] == 'P'
  {
    IntroLacksP();
    AboutMeLacksP();
    PhoneLabelLacksP();
    InstructionsLacksP();
    QuoteClauseShape();
    CallClauseShape();
  }

  /** The template literal closes with a line break and four spaces of indentation. */
  lemma InstructionsEnding()
    ensures EndsWith(Instructions, ClosingIndent)
  {
    var body := Instructions[..|Instructions| - |ClosingIndent|];
    assert Instructions == body + ClosingIndent;
    EndsWithAppend(body, ClosingIndent, ClosingIndent);
  }

  lemma TextsWellFormed()
    ensures WellFormed(Texts)
  {
    InstructionsEnding();
    QuoteClauseShape();
    CallClauseShape();
    ClausesDistinct();
  }

  // ---------------------------------------------------------------------------
  // The theorems for the source's prompt, `PromptOf(Texts, d)`.

  lemma PromptLayout(d: FormData)
    ensures FieldsInPlace(Texts, d)
  {
    LayoutOf(Texts, d);
  }

  lemma PromptEndings(d: FormData)
    ensures EndingsMatch(Texts, d)
  {
    TextsWellFormed();
    EndingsOf(Texts, d);
  }

  lemma QuotePromptExcludesCall(d: FormData)
    requires d.offerType == Quote
    ensures QuoteOnly(Texts, d)
  {
    TextsWellFormed();
    QuoteBranchOf(Texts, d);
  }

  lemma CallPromptExcludesQuote(d: FormData)
    requires d.offerType == Call
    ensures CallOnly(Texts, d)
  {
    TextsWellFormed();
    CallBranchOf(Texts, d);
  }

  lemma OtherPromptHasNoClause(d: FormData)
    requires d.offerType != Quote && d.offerType != Call
    ensures NoClause(Texts, d)
  {
    TextsWellFormed();
    OtherBranchOf(Texts, d);
  }

  /** The "Devis" prompt does not contain the call clause, unless a typed value has a
      capital 'P' (the clause's first letter). */
  lemma QuotePromptLacksCall(d: FormData)
    requires d.offerType == Quote && FieldsLack(d, 'P')
    ensures !Contains(PromptOf(Texts, d), Texts.call)
  {
    TextsWellFormed();
    TextsLackP();
    QuoteLacksCallOf(Texts, d);
  }

  /** The "Appel" prompt does not contain the quote clause, unless a typed value has a
      capital 'P' (the clause's first letter). */
  lemma CallPromptLacksQuote(d: FormData)
    requires d.offerType == Call && FieldsLack(d, 'P')
    ensures !Contains(PromptOf(Texts, d), Texts.quote)
  {
    TextsWellFormed();
    TextsLackP();
    CallLacksQuoteOf(Texts, d);
  }
}
