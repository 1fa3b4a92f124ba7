/** The accommodation request letters of the three letter services (server.js,
    accomodation-generator/server.js, updated-accomodation-generator/server.js) and the list
    of accommodations each of them embeds. The date is a parameter: the services read the
    clock and format it for a locale. */
module Letters {
  import opened Basics
  import opened JsText

  // ----- The lists ---------------------------------------------------------------------------

  /** The lines of server.js's list: "- acc" for each accommodation. */
  function BulletItems(accs: seq<string>): (lines: seq<string>)
    ensures |lines| == |accs|
  {
    seq(|accs|, i requires 0 <= i < |accs| => "- " + accs[i])
  }

  /** `accommodations.map(acc => `- ${acc}`).join('\n')`. */
  function BulletList(accs: seq<string>): string
  {
    Join(BulletItems(accs), "\n")
  }

  /** The lines of the numbered lists: "1. a", "2. b", ... */
  function NumberedItems(accs: seq<string>): (lines: seq<string>)
    ensures |lines| == |accs|
  {
    seq(|accs|, i requires 0 <= i < |accs| => NatToString(i + 1) + ". " + accs[i])
  }

  /** `accommodations.map((acc, index) => `${index + 1}. ${acc}`).join('\n')`. */
  function NumberedList(accs: seq<string>): string
  {
    Join(NumberedItems(accs), "\n")
  }

  /** Accommodations on one line each. */
  predicate OneLineEach(accs: seq<string>)
  {
    forall i :: 0 <= i < |accs| ==> '\n' !in accs[i]
  }

  /** Cutting the bullet list at its line breaks gives one line per accommodation, in
      order, and removing the two-character marker gives the accommodation back. */
  lemma BulletListLines(accs: seq<string>)
    requires |accs| >= 1 && OneLineEach(accs)
    ensures |Split(BulletList(accs), '\n')| == |accs|
    ensures forall i :: 0 <= i < |accs| ==>
      StartsWith(Split(BulletList(accs), '\n')[i], "- ") && Split(BulletList(accs), '\n')[i][2..] == accs[i]
  {
    var items := BulletItems(accs);
    forall i | 0 <= i < |items|
      ensures '\n' !in items[i]
    {
      assert items[i] == "- " + accs[i];
    }
    SplitJoin(items, '\n');
    forall i | 0 <= i < |accs|
      ensures StartsWith(items[i], "- ") && items[i][2..] == accs[i]
    {
      assert items[i] == "- " + accs[i];
    }
  }

  /** Cutting a numbered list at its line breaks gives one line per accommodation, in
      order; the number at the head of line `i` reads back as `i + 1` and the text after
      ". " is the accommodation. */
  lemma NumberedListLines(accs: seq<string>)
    requires |accs| >= 1 && OneLineEach(accs)
    ensures |Split(NumberedList(accs), '\n')| == |accs|
    ensures forall i :: 0 <= i < |accs| ==>
      && ParseInt(Split(NumberedList(accs), '\n')[i]) == Some(i + 1)
      && Split(NumberedList(accs), '\n')[i] == NatToString(i + 1) + ". " + accs[i]
  {
    var items := NumberedItems(accs);
    forall i | 0 <= i < |items|
      ensures '\n' !in items[i]
    {
      var num := NatToString(i + 1);
      assert items[i] == num + (". " + accs[i]);
      assert forall c :: c in num ==> IsDecimalDigit(c);
    }
    SplitJoin(items, '\n');
    forall i | 0 <= i < |accs|
      ensures ParseInt(items[i]) == Some(i + 1)
    {
      assert items[i] == NatToString(i + 1) + (". " + accs[i]);
      ParseIntNumeral(i + 1, ". " + accs[i]);
    }
  }

  // ----- The letters -------------------------------------------------------------------------
  // The fixed text of each template is spelled out in pieces of eight characters, cut
  // without regard to words; the pieces, joined, are the template's text. The pieces are
  // short because the solver takes a long string literal apart character by character, and
  // one literal per template paragraph makes the letter lemmas too slow to verify. Each letter is
  // written as its opening, the colon and blank line before the list, the list, the blank
  // line after it, and the closing paragraphs.

  /** A template literal `\n...:\n\n${list}\n\nThese...` after `trim()` still holds the whole
      list: the visible characters around it keep `trim` away from it. */
  lemma ListInLetter(opening: string, list: string, rest: string)
    ensures Includes(Trim(opening + ":\n\n" + list + "\n\nThese" + rest), list)
  {
    var s := opening + ":\n\n" + list + "\n\nThese" + rest;
    var a := |opening| + 3;
    var b := a + |list|;
    assert s[|opening|] == ':' && s[b + 2] == 'T';
    assert s[a..b] == list;
    TrimKeepsInterior(s, |opening|, a, b, b + 2);
  }

  /** The letter of server.js, up to the colon before the list. */
  function ServerOpening(date: string, name: string, disability: string, context: string): string
  {
    "\nDate: " + date + "\n\nTo Who" + "m It May" + " Concern" + ":\n\nI am " + "writing " +
    "this let" + "ter on b" + "ehalf of" + " " + name + ", who ha" + "s been d" + "iagnosed" +
    " with " + disability + ". " + name + " is a va" + "lued " + context + " who req" +
    "uires ce" + "rtain ac" + "commodat" + "ions to " + "ensure e" + "qual acc" + "ess and " +
    "opportun" + "ity.\n\nBa" + "sed on " + name + "'s condi" + "tion, th" + "e follow" +
    "ing acco" + "mmodatio" + "ns are s" + "uggested"
  }

  /** The closing paragraphs of server.js after their first word, "These". */
  function ServerClosing(name: string, context: string): string
  {
    " accommo" + "dations " + "are reco" + "mmended " + "to help " + name + " fully p" +
    "articipa" + "te and s" + "ucceed i" + "n their " + context + " environ" + "ment. We" +
    " kindly " + "request " + "your und" + "erstandi" + "ng and c" + "ooperati" + "on in im" +
    "plementi" + "ng these" + " accommo" + "dations " + "as appro" + "priate.\n" + "\nPlease " +
    "note tha" + "t this l" + "ist is n" + "ot exhau" + "stive, a" + "nd the s" + "pecific " +
    "accommod" + "ations s" + "hould be" + " discuss" + "ed and t" + "ailored " + "to " + name +
    "'s indiv" + "idual ne" + "eds and " + "circumst" + "ances.\n\n" + "If you h" + "ave any " +
    "question" + "s or nee" + "d furthe" + "r inform" + "ation, p" + "lease do" + "n't hesi" +
    "tate to " + "contact " + "us.\n\nTha" + "nk you f" + "or your " + "attentio" + "n to thi" +
    "s matter" + ".\n\nSince" + "rely,\n[Y" + "our Name" + "/Institu" + "tion]\n  "
  }

  /** `generateAccommodationLetter` of server.js: the template with a bullet list, trimmed. */
  function ServerLetter(date: string, name: string, disability: string, context: string, accs: seq<string>): string
  {
    Trim(ServerOpening(date, name, disability, context) + ":\n\n" + BulletList(accs) + "\n\nThese"
         + ServerClosing(name, context))
  }

  /** The letter of accomodation-generator/server.js, up to the colon before the list. */
  function GeneratorOpening(date: string, name: string, disability: string, context: string): string
  {
    "\n" + date + "\n\nTo Who" + "m It May" + " Concern" + ":\n\nRe: A" + "ccommoda" +
    "tion Req" + "uest for" + " " + name + "\n\nI am w" + "riting t" + "his lett" + "er to fo" +
    "rmally r" + "equest a" + "ccommoda" + "tions fo" + "r " + name + ", who ha" + "s been d" +
    "iagnosed" + " with " + disability + ". " + name + " is a va" + "lued " + context +
    " who req" + "uires ce" + "rtain ac" + "commodat" + "ions to " + "ensure e" + "qual acc" +
    "ess and " + "opportun" + "ity in t" + "heir " + context + " environ" + "ment.\n\nB" +
    "ased on " + name + "'s condi" + "tion and" + " needs, " + "the foll" + "owing ac" +
    "commodat" + "ions are" + " recomme" + "nded"
  }

  /** The closing paragraphs of accomodation-generator/server.js after "These". */
  function GeneratorClosing(name: string, context: string): string
  {
    " accommo" + "dations " + "are esse" + "ntial to" + " help " + name + " fully p" +
    "articipa" + "te and s" + "ucceed i" + "n their " + context + " respons" + "ibilitie" +
    "s. We ki" + "ndly req" + "uest you" + "r unders" + "tanding " + "and coop" + "eration " +
    "in imple" + "menting " + "these ac" + "commodat" + "ions as " + "appropri" + "ate.\n\nIt" +
    "'s impor" + "tant to " + "note tha" + "t this l" + "ist is n" + "ot exhau" + "stive, a" +
    "nd the s" + "pecific " + "accommod" + "ations s" + "hould be" + " discuss" + "ed and t" +
    "ailored " + "to " + name + "'s indiv" + "idual ne" + "eds and " + "circumst" + "ances. W" +
    "e encour" + "age open" + " communi" + "cation t" + "o ensure" + " that " + name +
    "'s needs" + " are met" + " effecti" + "vely.\n\nI" + "f you re" + "quire an" + "y additi" +
    "onal inf" + "ormation" + " or have" + " any que" + "stions r" + "egarding" + " these a" +
    "ccommoda" + "tions, p" + "lease do" + "n't hesi" + "tate to " + "contact " + "us. We a" +
    "re happy" + " to prov" + "ide furt" + "her clar" + "ificatio" + "n or doc" + "umentati" +
    "on as ne" + "eded.\n\nT" + "hank you" + " for you" + "r attent" + "ion to t" + "his matt" +
    "er and y" + "our comm" + "itment t" + "o provid" + "ing an i" + "nclusive" + " environ" +
    "ment for" + " all.\n\nS" + "incerely" + ",\n\n[Your" + " Name]\n[" + "Your Tit" +
    "le/Posit" + "ion]\n[Yo" + "ur Insti" + "tution/O" + "rganizat" + "ion]\n[Co" + "ntact In" +
    "formatio" + "n]\n"
  }

  /** `generateAccommodationLetter` of accomodation-generator/server.js: a numbered list. */
  function GeneratorLetter(date: string, name: string, disability: string, context: string, accs: seq<string>): string
  {
    Trim(GeneratorOpening(date, name, disability, context) + ":\n\n" + NumberedList(accs) + "\n\nThese"
         + GeneratorClosing(name, context))
  }

  /** The letter of updated-accomodation-generator/server.js, up to the colon before the list. */
  function UpdatedOpening(date: string, name: string, disability: string, context: string): string
  {
    "\n" + date + "\n\nTo Who" + "m It May" + " Concern" + ",\n\nRe: A" + "ccommoda" +
    "tion Req" + "uest for" + " " + name + "\n\nI am w" + "riting t" + "o formal" + "ly reque" +
    "st accom" + "modation" + "s for " + name + ", who ha" + "s been d" + "iagnosed" +
    " with " + disability + ". " + name + " is a va" + "lued " + context + " who req" +
    "uires ce" + "rtain ac" + "commodat" + "ions to " + "ensure e" + "qual acc" + "ess and " +
    "opportun" + "ity in t" + "heir " + context + " environ" + "ment.\n\nB" + "ased on " +
    name + "'s condi" + "tion, th" + "e follow" + "ing acco" + "mmodatio" + "ns are r" +
    "ecommend" + "ed"
  }

  /** The closing paragraphs of updated-accomodation-generator/server.js after "These". */
  function UpdatedClosing(name: string): string
  {
    " accommo" + "dations " + "are esse" + "ntial to" + " help " + name + " fully p" +
    "articipa" + "te in th" + "eir resp" + "onsibili" + "ties. We" + " kindly " + "request " +
    "your coo" + "peration" + " in impl" + "ementing" + " these a" + "ccommoda" + "tions.\n\n" +
    "Thank yo" + "u for yo" + "ur atten" + "tion.\n\nS" + "incerely" + ",\n\n[Your" +
    " Name]\n[" + "Your Tit" + "le/Posit" + "ion]\n[Yo" + "ur Insti" + "tution/O" + "rganizat" +
    "ion]\n[Co" + "ntact In" + "formatio" + "n]\n    "
  }

  /** `generateAccommodationLetter` of updated-accomodation-generator/server.js: a numbered
      list. */
  function UpdatedLetter(date: string, name: string, disability: string, context: string, accs: seq<string>): string
  {
    Trim(UpdatedOpening(date, name, disability, context) + ":\n\n" + NumberedList(accs) + "\n\nThese"
         + UpdatedClosing(name))
  }

  /** The letter of server.js holds its whole bullet list. */
  lemma ServerLetterHoldsList(date: string, name: string, disability: string, context: string, accs: seq<string>)
    ensures Includes(ServerLetter(date, name, disability, context, accs), BulletList(accs))
  {
    ListInLetter(ServerOpening(date, name, disability, context), BulletList(accs), ServerClosing(name, context));
  }

  /** The letter of accomodation-generator/server.js holds its whole numbered list. */
  lemma GeneratorLetterHoldsList(date: string, name: string, disability: string, context: string, accs: seq<string>)
    ensures Includes(GeneratorLetter(date, name, disability, context, accs), NumberedList(accs))
  {
    ListInLetter(GeneratorOpening(date, name, disability, context), NumberedList(accs), GeneratorClosing(name, context));
  }

  /** The letter of updated-accomodation-generator/server.js holds its whole numbered list. */
  lemma UpdatedLetterHoldsList(date: string, name: string, disability: string, context: string, accs: seq<string>)
    ensures Includes(UpdatedLetter(date, name, disability, context, accs), NumberedList(accs))
  {
    ListInLetter(UpdatedOpening(date, name, disability, context), NumberedList(accs), UpdatedClosing(name));
  }

  /** The `/generate-letter` route of updated-accomodation-generator/server.js: no field is
      checked; a missing field prints as "undefined", and `accommodations` that is not an
      array makes `map` throw, which the framework answers with status 500. */
  datatype LetterResponse = LetterOk(letter: string) | LetterFailed(status: int)

  function Shown(field: Option<string>): string
  {
    if field.Some? then field.value else "undefined"
  }

  function UpdatedGenerateLetter(date: string, name: Option<string>, disability: Option<string>,
                                 context: Option<string>, accommodations: Option<seq<string>>): (r: LetterResponse)
    ensures r.LetterFailed? <==> accommodations.None?
    ensures r.LetterOk? ==> Includes(r.letter, NumberedList(accommodations.value))
  {
    if accommodations.None? then LetterFailed(500)
    else
      UpdatedLetterHoldsList(date, Shown(name), Shown(disability), Shown(context), accommodations.value);
      LetterOk(UpdatedLetter(date, Shown(name), Shown(disability), Shown(context), accommodations.value))
  }
}
