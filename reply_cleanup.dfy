/** What server.js and accomodation-generator/server.js do with the chat model's reply
    before it goes into a letter, and the `/generate-letter` route of each. The chat
    completion call is an input (the reply text or a failure), and so is `JSON.parse`,
    given as an oracle from the cleaned text to what it parsed. */
module ReplyCleanup {
  import opened Basics
  import opened JsText
  import opened Letters

  // ----- Code fences -------------------------------------------------------------------------

  /** `replace(/```json\n?|\n?```/g, '')`. Scanning from the left, "```json" with the one
      newline after it if there is one, or "```" with the one newline before it if there
      is one, is removed; any other character is kept and the scan moves on by one. */
  function RemoveFences(s: string): (r: string)
    ensures |r| <= |s|
    decreases |s|
  {
    if StartsWith(s, "```json") then
      if StartsWith(s, "```json\n") then RemoveFences(s[8..]) else RemoveFences(s[7..])
    else if StartsWith(s, "\n```") then RemoveFences(s[4..])
    else if StartsWith(s, "```") then RemoveFences(s[3..])
    else if s == [] then []
    else [s[0]] + RemoveFences(s[1..])
  }

  /** The fences removed, then `trim()`. */
  function StripFences(content: string): (r: string)
    ensures Trimmed(r)
  {
    Trim(RemoveFences(content))
  }

  lemma {:induction false} SubsequenceOfSuffix<T>(r: seq<T>, s: seq<T>, k: nat)
    requires k <= |s| && IsSubsequence(r, s[k..])
    ensures IsSubsequence(r, s)
    decreases k
  {
    if k > 0 {
      assert s[1..][k - 1..] == s[k..];
      SubsequenceOfSuffix(r, s[1..], k - 1);
    }
  }

  /** Fence removal only deletes characters: what is left keeps its order. */
  lemma {:induction false} RemoveFencesSubsequence(s: string)
    ensures IsSubsequence(RemoveFences(s), s)
    decreases |s|
  {
    if StartsWith(s, "```json") {
      if StartsWith(s, "```json\n") {
        RemoveFencesSubsequence(s[8..]);
        SubsequenceOfSuffix(RemoveFences(s), s, 8);
      } else {
        RemoveFencesSubsequence(s[7..]);
        SubsequenceOfSuffix(RemoveFences(s), s, 7);
      }
    } else if StartsWith(s, "\n```") {
      RemoveFencesSubsequence(s[4..]);
      SubsequenceOfSuffix(RemoveFences(s), s, 4);
    } else if StartsWith(s, "```") {
      RemoveFencesSubsequence(s[3..]);
      SubsequenceOfSuffix(RemoveFences(s), s, 3);
    } else if s != [] {
      RemoveFencesSubsequence(s[1..]);
      assert RemoveFences(s)[1..] == RemoveFences(s[1..]);
    }
  }

  /** A text that starts with neither a backtick nor a newline followed by a fence starts
      with no fence. */
  lemma NoFenceAtStart(s: string)
    requires s != [] && s[0] != '`'
    requires s[0] != '\n' || !StartsWith(s[1..], "```")
    ensures !StartsWith(s, "```json") && !StartsWith(s, "```") && !StartsWith(s, "\n```")
  {
    assert !StartsWith(s, "```json") by {
      if |s| >= 7 {
        assert s[..7][0] == s[0];
      }
    }
    assert !StartsWith(s, "```") by {
      if |s| >= 3 {
        assert s[..3][0] == s[0];
      }
    }
    assert !StartsWith(s, "\n```") by {
      if |s| >= 4 {
        assert s[..4][0] == s[0];
        assert s[..4][1..] == s[1..][..3];
      }
    }
  }

  /** A character that no fence can start at is kept, and the scan moves on by one. */
  lemma KeepsFirst(s: string)
    requires s != [] && s[0] != '`'
    requires s[0] != '\n' || !StartsWith(s[1..], "```")
    ensures RemoveFences(s) == [s[0]] + RemoveFences(s[1..])
  {
    NoFenceAtStart(s);
  }

  /** Text without a backtick passes through untouched, up to a following fence that it
      does not run into (a trailing newline of `b` would be taken by "\n```"). */
  lemma {:induction false} RemoveFencesPlain(b: string, t: string)
    requires '`' !in b
    requires b == [] || b[|b| - 1] != '\n' || !StartsWith(t, "```")
    ensures RemoveFences(b + t) == b + RemoveFences(t)
    decreases |b|
  {
    if b != [] {
      var s := b + t;
      assert s[0] == b[0] && s[1..] == b[1..] + t;
      if |b| >= 2 {
        assert b[1] in b;
        assert |s[1..]| < 3 || s[1..][..3][0] == b[1];
      } else {
        assert s[1..] == t && b[|b| - 1] == b[0];
      }
      KeepsFirst(s);
      RemoveFencesPlain(b[1..], t);
      calc {
        RemoveFences(b + t);
        [b[0]] + RemoveFences(b[1..] + t);
        [b[0]] + (b[1..] + RemoveFences(t));
        { assert b == [b[0]] + b[1..]; }
        b + RemoveFences(t);
      }
    } else {
      assert b + t == t;
    }
  }

  /** A reply with no backtick is left as it is by fence removal. */
  lemma NoFencesUntouched(s: string)
    requires '`' !in s
    ensures RemoveFences(s) == s
  {
    RemoveFencesPlain(s, []);
    assert s + [] == s;
  }

  lemma ClosingFenceRemoved()
    ensures !StartsWith("\n```", "```")
    ensures RemoveFences("\n```") == []
  {
    assert "\n```"[..3][0] == '\n';
    assert "\n```"[..4] == "\n```";
  }

  /** A reply wrapped in a "```json" fence comes out as its trimmed body. */
  lemma JsonFencedReply(b: string)
    requires '`' !in b
    ensures StripFences("```json\n" + b + "\n```") == Trim(b)
  {
    var s := "```json\n" + b + "\n```";
    assert s[..8] == "```json\n";
    assert s[8..] == b + "\n```";
    ClosingFenceRemoved();
    RemoveFencesPlain(b, "\n```");
    assert b + [] == b;
  }

  lemma TrimLeadingSpace(c: char, b: string)
    requires IsSpace(c)
    ensures Trim([c] + b) == Trim(b)
  {
    assert ([c] + b)[1..] == b;
  }

  /** A reply wrapped in a bare "```" fence comes out as its trimmed body too. */
  lemma BareFencedReply(b: string)
    requires '`' !in b
    ensures StripFences("```\n" + b + "\n```") == Trim(b)
  {
    var u := "```\n" + b + "\n```";
    assert |u| < 7 || u[..7][3] == '\n';
    assert u[..3] == "```";
    assert u[3..] == ("\n" + b) + "\n```";
    ClosingFenceRemoved();
    RemoveFencesPlain("\n" + b, "\n```");
    assert ("\n" + b) + [] == ['\n'] + b;
    TrimLeadingSpace('\n', b);
  }

  /** A newline before "```json" is taken by the "\n?```" alternative first, so the word
      "json" stays in the text (and `JSON.parse` then fails on it). */
  lemma NewlineBeforeJsonFence(x: string)
    ensures RemoveFences("\n```json" + x) == "json" + RemoveFences(x)
  {
    var s := "\n```json" + x;
    assert s[..7][0] == '\n';
    assert s[..4] == "\n```";
    assert s[4..] == "json" + x;
    RemoveFencesPlain("json", x);
  }

  // ----- The fallback extractor --------------------------------------------------------------

  /** The characters `^[-*"]` matches. */
  predicate IsMarker(c: char)
  {
    c == '-' || c == '*' || c == '"'
  }

  /** `line.trim().startsWith('-') || ... '*' || ... '"'`. */
  predicate IsSuggestionLine(line: string)
  {
    var t := Trim(line);
    t != [] && IsMarker(t[0])
  }

  /** The first replacement of the clean-up: a marker and the white space after it go, but
      only when the marker is the line's very first character. */
  function DropMarker(line: string): (r: string)
    ensures |r| <= |line|
  {
    if line != [] && IsMarker(line[0]) then TrimStart(line[1..]) else line
  }

  /** `replace(/[",]$/g, '')`: `$` matches only at the end, so at most one character goes. */
  function DropTrailing(s: string): (r: string)
    ensures |s| - 1 <= |r| <= |s|
  {
    if s != [] && (s[|s| - 1] == '"' || s[|s| - 1] == ',') then s[..|s| - 1] else s
  }

  function CleanSuggestion(line: string): (r: string)
    ensures Trimmed(r)
  {
    Trim(DropTrailing(DropMarker(line)))
  }

  const UnableToParse := "Error: Unable to parse API response"

  /** The extractor used when `JSON.parse` throws: the lines that look like list items,
      cleaned, in order; a single error sentinel when there are none. */
  function Fallback(content: string): (r: seq<string>)
    ensures |r| >= 1
    ensures (forall line :: line in Split(content, '\n') ==> !IsSuggestionLine(line)) ==> r == [UnableToParse]
  {
    var kept := Filter(Split(content, '\n'), IsSuggestionLine);
    FilterMembers(Split(content, '\n'), IsSuggestionLine);
    if kept == [] then [UnableToParse]
    else
      assert kept[0] in kept;
      seq(|kept|, i requires 0 <= i < |kept| => CleanSuggestion(kept[i]))
  }

  /** Neither a closing quote nor a comma at the end. */
  predicate EndsClean(a: string)
  {
    a == [] || (a[|a| - 1] != '"' && a[|a| - 1] != ',')
  }

  lemma TrimmedFixed(a: string)
    requires Trimmed(a)
    ensures Trim(a) == a
  {
    TrimPadded([], a, []);
    assert [] + a + [] == a;
  }

  lemma TrimKeepsHead(s: string)
    requires s != [] && !IsSpace(s[0])
    ensures Trim(s) != [] && Trim(s)[0] == s[0]
  {
    var i, j := TrimSlice(s);
    SpacePrefixBefore(s, i, 0);
    SpaceSuffixAfter(s, j, 0);
  }

  /** A bullet "- a" cleans back to `a`. */
  lemma CleanBullet(a: string)
    requires Trimmed(a) && EndsClean(a)
    ensures IsSuggestionLine("- " + a)
    ensures CleanSuggestion("- " + a) == a
  {
    var line := "- " + a;
    TrimKeepsHead(line);
    assert line[1..] == " " + a;
    assert TrimStart(" " + a) == a by {
      assert (" " + a)[1..] == a;
    }
    TrimmedFixed(a);
  }

  /** A reply written as a dash-bulleted list (the very list server.js puts in its letter)
      gives back, through the fallback, exactly its items in order. */
  lemma BulletReplyRoundTrip(accs: seq<string>)
    requires |accs| >= 1 && OneLineEach(accs)
    requires forall i :: 0 <= i < |accs| ==> Trimmed(accs[i]) && EndsClean(accs[i])
    ensures Fallback(BulletList(accs)) == accs
  {
    var lines := Split(BulletList(accs), '\n');
    BulletListLines(accs);
    forall i | 0 <= i < |lines|
      ensures IsSuggestionLine(lines[i]) && CleanSuggestion(lines[i]) == accs[i]
    {
      assert lines[i] == lines[i][..2] + lines[i][2..];
      CleanBullet(accs[i]);
    }
    FilterAll(lines, IsSuggestionLine);
  }

  /** A JSON-looking line `"x",` loses its comma but keeps its closing quote. */
  lemma QuotedItemKeepsQuote(x: string)
    requires Trimmed(x)
    ensures IsSuggestionLine("\"" + x + "\",")
    ensures CleanSuggestion("\"" + x + "\",") == x + "\""
  {
    var line := "\"" + x + "\",";
    TrimKeepsHead(line);
    assert line[1..] == x + "\",";
    assert TrimStart(x + "\",") == x + "\",";
    assert (x + "\",")[..|x| + 1] == x + "\"";
    TrimmedFixed(x + "\"");
  }

  /** An indented bullet keeps its marker: only a marker in the very first column goes. */
  lemma IndentedMarkerStays(a: string)
    requires a != [] && Trimmed(a) && EndsClean(a)
    ensures IsSuggestionLine("  - " + a)
    ensures CleanSuggestion("  - " + a) == "- " + a
  {
    var line := "  - " + a;
    assert line == "  " + ("- " + a) + "";
    TrimPadded("  ", "- " + a, "");
    assert DropTrailing(line) == line;
  }

  // ----- generateAccommodations --------------------------------------------------------------

  /** What `JSON.parse` made of the cleaned reply: an array (of strings), another JSON
      value, or a syntax error. */
  datatype Parsed = JsonArray(items: seq<string>) | JsonNonArray | JsonSyntaxError

  /** The outcome of the chat completion request: the reply text, or a failure with the
      description the services report (`error.message`, or the error body as JSON). */
  datatype ApiReply = Reply(content: string) | ApiFailure(detail: string)

  const UnexpectedFormat := "Error: Unexpected response format from API"
  const GenerationFailed := "Error generating accommodations. Please try again."
  const GenerationErrorPrefix := "Error generating accommodations: "

  /** The accommodations a successful reply yields, in both services. */
  function FromReply(content: string, parse: string -> Parsed): (r: seq<string>)
    ensures r == [] <==> parse(StripFences(content)) == JsonArray([])
    ensures parse(StripFences(content)).JsonArray? ==> r == parse(StripFences(content)).items
  {
    var cleaned := StripFences(content);
    match parse(cleaned)
    case JsonArray(items) => items
    case JsonNonArray => [UnexpectedFormat]
    case JsonSyntaxError => Fallback(cleaned)
  }

  /** JSON that is not an array yields the format sentinel alone; text that is not JSON goes
      to the fallback extractor, which never yields an empty list. */
  lemma ParseOutcomes(content: string, parse: string -> Parsed)
    ensures parse(StripFences(content)).JsonNonArray? ==> FromReply(content, parse) == [UnexpectedFormat]
    ensures parse(StripFences(content)).JsonSyntaxError? ==>
      FromReply(content, parse) == Fallback(StripFences(content)) && |FromReply(content, parse)| >= 1
  {
  }

  /** `generateAccommodations` of server.js: a failed request becomes a one-line sentinel
      list, so the letter is still written. */
  function GenerateAccommodations(reply: ApiReply, parse: string -> Parsed): (r: seq<string>)
    ensures r == [] <==> reply.Reply? && parse(StripFences(reply.content)) == JsonArray([])
    ensures reply.ApiFailure? ==> r == [GenerationFailed]
  {
    match reply
    case Reply(content) => FromReply(content, parse)
    case ApiFailure(_) => [GenerationFailed]
  }

  /** What accomodation-generator/server.js's `generateAccommodations` settles with. */
  datatype Generated = Generated(accommodations: seq<string>) | Thrown(message: string)

  /** `generateAccommodations` of accomodation-generator/server.js: the same clean-up, but a
      failed request is rethrown with a prefixed message. */
  function GenerateAccommodationsOrThrow(reply: ApiReply, parse: string -> Parsed): (r: Generated)
    ensures r.Thrown? <==> reply.ApiFailure?
    ensures r.Thrown? ==> r.message == GenerationErrorPrefix + reply.detail
    ensures r.Generated? ==> r.accommodations == GenerateAccommodations(reply, parse)
  {
    match reply
    case Reply(content) => Generated(FromReply(content, parse))
    case ApiFailure(detail) => Thrown(GenerationErrorPrefix + detail)
  }

  /** The rethrown error's message starts with "Error generating accommodations: ". */
  lemma RethrownMessage(reply: ApiReply, parse: string -> Parsed)
    requires reply.ApiFailure?
    ensures StartsWith(GenerateAccommodationsOrThrow(reply, parse).message, GenerationErrorPrefix)
  {
    var m := GenerationErrorPrefix + reply.detail;
    assert m[..|GenerationErrorPrefix|] == GenerationErrorPrefix;
  }

  // ----- The /generate-letter routes ---------------------------------------------------------

  /** The JSON a `/generate-letter` request is answered with. */
  datatype Response =
    | LetterSent(letter: string, accommodations: seq<string>)
    | Failure(status: int, error: string, details: Option<string>)

  const MissingFields := "Missing required fields"

  /** `!name || !disability || !context`. */
  predicate MissingField(name: Option<string>, disability: Option<string>, context: Option<string>)
  {
    !Truthy(name) || !Truthy(disability) || !Truthy(context)
  }

  /** The route of server.js. Nothing in it throws once the fields are strings, so its
      catch-all 500 answer is never reached here. */
  function ServerGenerateLetter(date: string, name: Option<string>, disability: Option<string>,
                                context: Option<string>, reply: ApiReply, parse: string -> Parsed): (r: Response)
    ensures r.Failure? <==> MissingField(name, disability, context)
    ensures r.Failure? ==> r == Failure(400, MissingFields, None)
    ensures r.LetterSent? ==> r.accommodations == GenerateAccommodations(reply, parse)
    ensures r.LetterSent? ==> Includes(r.letter, BulletList(r.accommodations))
  {
    if MissingField(name, disability, context) then Failure(400, MissingFields, None)
    else
      var accs := GenerateAccommodations(reply, parse);
      ServerLetterHoldsList(date, name.value, disability.value, context.value, accs);
      LetterSent(ServerLetter(date, name.value, disability.value, context.value, accs), accs)
  }

  const KeyNotSet := "OpenAI API key is not set"
  const ErrorOccurred := "An error occurred"

  /** The route of accomodation-generator/server.js: fields first, then the API key, then a
      rethrown request failure answered with status 500 and its message as details. */
  function GeneratorGenerateLetter(date: string, name: Option<string>, disability: Option<string>,
                                   context: Option<string>, apiKeySet: bool, reply: ApiReply,
                                   parse: string -> Parsed): (r: Response)
    ensures MissingField(name, disability, context) ==> r == Failure(400, MissingFields, None)
    ensures !MissingField(name, disability, context) && !apiKeySet ==> r == Failure(500, KeyNotSet, None)
    ensures !MissingField(name, disability, context) && apiKeySet && reply.ApiFailure? ==>
      r == Failure(500, ErrorOccurred, Some(GenerationErrorPrefix + reply.detail))
    ensures r.LetterSent? ==> Includes(r.letter, NumberedList(r.accommodations))
  {
    if MissingField(name, disability, context) then Failure(400, MissingFields, None)
    else if !apiKeySet then Failure(500, KeyNotSet, None)
    else
      match GenerateAccommodationsOrThrow(reply, parse)
      case Thrown(message) => Failure(500, ErrorOccurred, Some(message))
      case Generated(accs) =>
        GeneratorLetterHoldsList(date, name.value, disability.value, context.value, accs);
        LetterSent(GeneratorLetter(date, name.value, disability.value, context.value, accs), accs)
  }

  /** With the fields present and the key set, a reply from the model is always answered
      with a letter, around the same accommodations server.js would use. */
  lemma GeneratorAnswersReply(date: string, name: Option<string>, disability: Option<string>,
                              context: Option<string>, reply: ApiReply, parse: string -> Parsed)
    requires !MissingField(name, disability, context) && reply.Reply?
    ensures GeneratorGenerateLetter(date, name, disability, context, true, reply, parse).LetterSent?
    ensures GeneratorGenerateLetter(date, name, disability, context, true, reply, parse).accommodations
            == GenerateAccommodations(reply, parse)
  {
  }
}
