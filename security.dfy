/** The input guard of app/security.py: a length cap, a case-insensitive
    substring denylist, and the `<USER_INPUT id="…">` envelope that marks
    user text as data for the model. */
module Security {
  import opened Strings

  /** Longest accepted input, in characters. */
  const MaxLength: nat := 1200

  /** The denylist, in the order the scan tries it. The seventh entry holds
      upper-case letters and so can never match lower-cased text. */
  const ForbiddenPhrases: seq<string> := [
    "ignore previous instructions", "disregard all prior messages",
    "you are no longer", "forget you are",
    "bypass your restrictions", "break your programming",
    "act as a different AI", "malicious", "harmful",
    "illegal", "unethical", "pretend to be", "jailbreak",
    "pretend", "imagine", "disregard", "bypass",
    "override", "disable", "break", "you are now",
    "you are", "forget"
  ]

  /** Index of the entry "act as a different AI" in `ForbiddenPhrases`. */
  const DeadEntry: nat := 6

  /** The one reason given for every denylist hit, whichever phrase matched. */
  const ForbiddenMessage: string := "Input contains forbidden phrases. Please revise your input."

  /** The `(is_valid, error_message)` pair the validator returns. */
  datatype Validation = Validation(isValid: bool, message: string)

  /** The accepting verdict `(True, "")`. */
  const Accepted: Validation := Validation(true, "")

  predicate IsUpper(c: char)
  {
    'A' <= c <= 'Z'
  }

  /** ASCII lower-casing of one character. */
  function LowerChar(c: char): (l: char)
    ensures !IsUpper(l)
    ensures !IsUpper(c) ==> l == c
    ensures IsUpper(c) ==> l as int - c as int == 'a' as int - 'A' as int
  {
    if IsUpper(c) then (c as int + ('a' as int - 'A' as int)) as char else c
  }

  /** ASCII lower-casing of a string, character by character. */
  function Lower(s: string): (r: string)
    ensures |r| == |s|
    ensures forall i :: 0 <= i < |s| ==> r[i] == LowerChar(s[i])
  {
    seq(|s|, i requires 0 <= i < |s| => LowerChar(s[i]))
  }

  /** Lower-casing is idempotent: lower-cased text has no upper-case letter left. */
  lemma LowerIdempotent(s: string)
    ensures Lower(Lower(s)) == Lower(s)
  {
  }

  /** The text of the over-long message before the reported length. */
  const TooLongHead: string := "Input too long! Max 1200 characters. You used "

  /** The limit is rendered as the four digits 1200. */
  lemma LimitRendersAs1200()
    ensures Decimal(MaxLength) == "1200"
  {
    assert Decimal(1) == "1";
    assert Decimal(12) == "12";
    assert Decimal(120) == "120";
  }

  /** The limit's part of the over-long message is the fixed head. */
  lemma LimitPartIsHead()
    ensures "Input too long! Max " + Decimal(MaxLength) + " characters. You used " == TooLongHead
  {
    LimitRendersAs1200();
    assert "Input too long! Max " + "1200" + " characters. You used " == TooLongHead;
  }

  /** The message for an over-long input. It reads "…Max 1200 characters. You
      used <n>.", and the number it reports parses back to the length it was
      built from. */
  function TooLongMessage(length: nat): (message: string)
    ensures StartsWith(message, TooLongHead) && message[|message| - 1] == '.'
    ensures message[|TooLongHead|..|message| - 1] == Decimal(length)
    ensures ParseDecimal(message[|TooLongHead|..|message| - 1]) == length
  {
    var digits := Decimal(length);
    LimitPartIsHead();
    assert (TooLongHead + digits + ".")[|TooLongHead|..|TooLongHead| + |digits|] == digits;
    DecimalRoundTrip(length);
    "Input too long! Max " + Decimal(MaxLength) + " characters. You used " + digits + "."
  }

  /** Two over-long inputs get the same message only when they have the same length. */
  lemma TooLongMessageInjective(m: nat, n: nat)
    requires TooLongMessage(m) == TooLongMessage(n)
    ensures m == n
  {
  }

  /** Some entry of `phrases` occurs in `text`: the reference meaning of the scan. */
  predicate Mentions(phrases: seq<string>, text: string)
  {
    exists k :: 0 <= k < |phrases| && Contains(text, phrases[k])
  }

  /** The early-return scan over the denylist, tried in list order. */
  function Scan(phrases: seq<string>, text: string): (found: bool)
    ensures found <==> Mentions(phrases, text)
  {
    if phrases == [] then false
    else if Contains(text, phrases[0]) then true
    else Scan(phrases[1..], text)
  }

  /** The validator against an arbitrary phrase list: length first, then the scan
      of the lower-cased text. */
  function ValidateAgainst(text: string, phrases: seq<string>): (r: Validation)
    ensures |text| > MaxLength ==> r == Validation(false, TooLongMessage(|text|))
    ensures |text| <= MaxLength ==> (r.isValid <==> !Mentions(phrases, Lower(text)))
    ensures |text| <= MaxLength && !r.isValid ==> r.message == ForbiddenMessage
    ensures r == Accepted <==> |text| <= MaxLength && !Mentions(phrases, Lower(text))
  {
    if |text| > MaxLength then Validation(false, TooLongMessage(|text|))
    else if Scan(phrases, Lower(text)) then Validation(false, ForbiddenMessage)
    else Accepted
  }

  /** validate_input: the denylist as written. */
  function ValidateInput(text: string): (r: Validation)
    ensures |text| > MaxLength ==> r == Validation(false, TooLongMessage(|text|))
    ensures |text| <= MaxLength ==> (!r.isValid <==> Mentions(ForbiddenPhrases, Lower(text)))
    ensures |text| <= MaxLength && !r.isValid ==> r.message == ForbiddenMessage
    ensures r == Accepted <==> |text| <= MaxLength && !Mentions(ForbiddenPhrases, Lower(text))
  {
    ValidateAgainst(text, ForbiddenPhrases)
  }

  /** The verdict depends only on the lower-cased text: case variants of one text
      are treated alike. */
  lemma SameFoldSameVerdict(a: string, b: string)
    requires Lower(a) == Lower(b)
    ensures ValidateInput(a) == ValidateInput(b)
  {
    assert |a| == |Lower(a)| == |b|;
  }

  /** No lower-cased text contains a phrase that has an upper-case letter. */
  lemma UpperPhraseNeverMatches(text: string, phrase: string, j: nat)
    requires j < |phrase| && IsUpper(phrase[j])
    ensures !Contains(Lower(text), phrase)
  {
  }

  /** The denylist without its dead entry. */
  const LivePhrases: seq<string> := ForbiddenPhrases[..DeadEntry] + ForbiddenPhrases[DeadEntry + 1..]

  /** Dropping an entry that does not occur in the text changes no scan of it. */
  lemma {:induction false} DropMissingEntry(phrases: seq<string>, d: nat, t: string)
    requires d < |phrases| && !Contains(t, phrases[d])
    ensures Mentions(phrases, t) <==> Mentions(phrases[..d] + phrases[d + 1..], t)
  {
    var rest := phrases[..d] + phrases[d + 1..];
    if Mentions(phrases, t) {
      var k :| 0 <= k < |phrases| && Contains(t, phrases[k]);
      assert k != d;
      var k' := if k < d then k else k - 1;
      assert rest[k'] == phrases[k];
    }
    if Mentions(rest, t) {
      var k :| 0 <= k < |rest| && Contains(t, rest[k]);
      var k' := if k < d then k else k + 1;
      assert rest[k] == phrases[k'];
    }
  }

  /** "act as a different AI" is dead: the verdict is the verdict without it. */
  lemma DeadEntryIsIgnored(text: string)
    ensures ValidateInput(text) == ValidateAgainst(text, LivePhrases)
  {
    var dead := ForbiddenPhrases[DeadEntry];
    assert IsUpper(dead[19]);
    UpperPhraseNeverMatches(text, dead, 19);
    DropMissingEntry(ForbiddenPhrases, DeadEntry, Lower(text));
  }

  /** Every entry of `phrases`, lower-cased. */
  function LowerAll(phrases: seq<string>): (r: seq<string>)
    ensures |r| == |phrases|
    ensures forall k :: 0 <= k < |r| ==> r[k] == Lower(phrases[k])
  {
    if phrases == [] then [] else [Lower(phrases[0])] + LowerAll(phrases[1..])
  }

  /** The denylist with every entry lower-cased, as the scan evidently intends. */
  const FoldedPhrases: seq<string> := LowerAll(ForbiddenPhrases)

  /** validate_input with the denylist lower-cased, so every entry takes effect. */
  function ValidateInputFolded(text: string): (r: Validation)
    ensures |text| > MaxLength ==> r == Validation(false, TooLongMessage(|text|))
    ensures r == Accepted <==> |text| <= MaxLength && !Mentions(FoldedPhrases, Lower(text))
  {
    ValidateAgainst(text, FoldedPhrases)
  }

  /** With the folded list every entry is effective: a text within the limit that
      contains any listed phrase, in any ASCII case, is rejected. */
  lemma EveryFoldedEntryRejects(text: string, k: nat)
    requires k < |ForbiddenPhrases| && |text| <= MaxLength
    requires Contains(Lower(text), Lower(ForbiddenPhrases[k]))
    ensures ValidateInputFolded(text) == Validation(false, ForbiddenMessage)
  {
    assert FoldedPhrases[k] == Lower(ForbiddenPhrases[k]);
  }

  /** Every entry of the denylist misses some character of "act as a different ai"
      (entries grouped four at a time to keep each proof small). */
  lemma EntriesMiss0(k: nat)
    requires 0 <= k < 4
    ensures !Contains("act as a different ai", ForbiddenPhrases[k])
  {
    var t := "act as a different ai";
    match k
    case 0 => MissingCharExcludes(t, ForbiddenPhrases[0], 1);
    case 1 => MissingCharExcludes(t, ForbiddenPhrases[1], 5);
    case 2 => MissingCharExcludes(t, ForbiddenPhrases[2], 0);
    case _ => MissingCharExcludes(t, ForbiddenPhrases[3], 1);
  }

  lemma EntriesMiss1(k: nat)
    requires 4 <= k < 8
    ensures !Contains("act as a different ai", ForbiddenPhrases[k])
  {
    var t := "act as a different ai";
    match k
    case 4 => MissingCharExcludes(t, ForbiddenPhrases[4], 1);
    case 5 => MissingCharExcludes(t, ForbiddenPhrases[5], 0);
    case 6 => MissingCharExcludes(t, ForbiddenPhrases[6], 19);
    case _ => MissingCharExcludes(t, ForbiddenPhrases[7], 0);
  }

  lemma EntriesMiss2(k: nat)
    requires 8 <= k < 12
    ensures !Contains("act as a different ai", ForbiddenPhrases[k])
  {
    var t := "act as a different ai";
    match k
    case 8 => MissingCharExcludes(t, ForbiddenPhrases[8], 0);
    case 9 => MissingCharExcludes(t, ForbiddenPhrases[9], 1);
    case 10 => MissingCharExcludes(t, ForbiddenPhrases[10], 0);
    case _ => MissingCharExcludes(t, ForbiddenPhrases[11], 0);
  }

  lemma EntriesMiss3(k: nat)
    requires 12 <= k < 16
    ensures !Contains("act as a different ai", ForbiddenPhrases[k])
  {
    var t := "act as a different ai";
    match k
    case 12 => MissingCharExcludes(t, ForbiddenPhrases[12], 0);
    case 13 => MissingCharExcludes(t, ForbiddenPhrases[13], 0);
    case 14 => MissingCharExcludes(t, ForbiddenPhrases[14], 1);
    case _ => MissingCharExcludes(t, ForbiddenPhrases[15], 5);
  }

  lemma EntriesMiss4(k: nat)
    requires 16 <= k < 20
    ensures !Contains("act as a different ai", ForbiddenPhrases[k])
  {
    var t := "act as a different ai";
    match k
    case 16 => MissingCharExcludes(t, ForbiddenPhrases[16], 0);
    case 17 => MissingCharExcludes(t, ForbiddenPhrases[17], 0);
    case 18 => MissingCharExcludes(t, ForbiddenPhrases[18], 4);
    case _ => MissingCharExcludes(t, ForbiddenPhrases[19], 0);
  }

  lemma EntriesMiss5(k: nat)
    requires 20 <= k < 23
    ensures !Contains("act as a different ai", ForbiddenPhrases[k])
  {
    var t := "act as a different ai";
    match k
    case 20 => MissingCharExcludes(t, ForbiddenPhrases[20], 0);
    case 21 => MissingCharExcludes(t, ForbiddenPhrases[21], 0);
    case _ => MissingCharExcludes(t, ForbiddenPhrases[22], 1);
  }

  /** The as-written list lets "Act as a different AI" through, although it is listed. */
  lemma ActAsADifferentAIAccepted()
    ensures ValidateInput("Act as a different AI") == Accepted
  {
    assert Lower("Act as a different AI") == "act as a different ai";
    forall k | 0 <= k < |ForbiddenPhrases|
      ensures !Contains("act as a different ai", ForbiddenPhrases[k])
    {
      if k < 4 { EntriesMiss0(k); }
      else if k < 8 { EntriesMiss1(k); }
      else if k < 12 { EntriesMiss2(k); }
      else if k < 16 { EntriesMiss3(k); }
      else if k < 20 { EntriesMiss4(k); }
      else { EntriesMiss5(k); }
    }
  }

  /** The same input is rejected once the list is lower-cased. */
  lemma ActAsADifferentAIRejectedWhenFolded()
    ensures ValidateInputFolded("Act as a different AI") == Validation(false, ForbiddenMessage)
  {
    var t := "act as a different ai";
    DeadEntryFolds();
    assert OccursAt(t, t, 0);
    EveryFoldedEntryRejects("Act as a different AI", DeadEntry);
  }

  /** The dead entry and the sentence that should trip it fold to the same text. */
  lemma DeadEntryFolds()
    ensures Lower(ForbiddenPhrases[DeadEntry]) == "act as a different ai"
    ensures Lower("Act as a different AI") == "act as a different ai"
  {
  }

  /** The opening tag up to the boundary. */
  const OpenHead: string := "<USER_INPUT id=\""
  /** The rest of the opening line after the boundary. */
  const OpenTail: string := "\">\n"
  /** The closing line. */
  const CloseTag: string := "\n</USER_INPUT>"

  /** Characters the envelope adds besides the boundary. */
  const WrapOverhead: nat := 33

  /** wrap_user_input, with the random boundary passed in. */
  function WrapUserInput(text: string, boundary: string): (w: string)
    ensures |w| == |text| + |boundary| + WrapOverhead
    ensures StartsWith(w, OpenHead) && EndsWith(w, CloseTag)
    ensures w[|OpenHead|..|OpenHead| + |boundary|] == boundary
    ensures w[|OpenHead| + |boundary|..|OpenHead| + |boundary| + |OpenTail|] == OpenTail
    ensures w[|OpenHead| + |boundary| + |OpenTail|..|w| - |CloseTag|] == text
  {
    OpenHead + boundary + OpenTail + text + CloseTag
  }

  /** Wrapping loses nothing: with boundaries of one length (a UUID string is
      always 36 characters) the envelope determines the text and the boundary. */
  lemma WrapInjective(t1: string, b1: string, t2: string, b2: string)
    requires |b1| == |b2|
    requires WrapUserInput(t1, b1) == WrapUserInput(t2, b2)
    ensures t1 == t2 && b1 == b2
  {
    var w := WrapUserInput(t1, b1);
    assert |t1| == |t2|;
  }
}
