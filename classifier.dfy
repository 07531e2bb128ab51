/**
 * The classifier adapter: the keyword fallback, the reply parser with its
 * JSON-span extraction and field defaulting, the prompt text and the
 * single-comment call whose remote part is an oracle.
 */
module Classifier {
  import opened Wrappers
  import opened Types
  import Text

  // ---------------------------------------------------------------------
  // Keyword fallback
  // ---------------------------------------------------------------------

  const NegativeWords: seq<string> :=
    ["hate", "terrible", "awful", "worst", "stupid", "idiot", "แย่", "เกลียด", "โง่"]
  const PositiveWords: seq<string> :=
    ["love", "great", "awesome", "excellent", "good", "ดี", "เยี่ยม", "รัก"]

  const FallbackConfidence: real := 0.6
  const FallbackReasoning: string := "Fallback keyword-based analysis"

  /** `words.some(word => content.includes(word))`. */
  predicate AnyIncluded(content: string, words: seq<string>) {
    exists k | 0 <= k < |words| :: Text.Includes(content, words[k])
  }

  predicate HasNegative(text: string) {
    AnyIncluded(Text.Lower(text), NegativeWords)
  }

  predicate HasPositive(text: string) {
    AnyIncluded(Text.Lower(text), PositiveWords)
  }

  /** The local keyword classifier, a function of the text alone. */
  function Fallback(text: string): Analysis {
    var hasNegative := HasNegative(text);
    var hasPositive := HasPositive(text);
    var (sentiment, risk) :=
      if hasNegative && !hasPositive then (Negative, LowRisk)
      else if hasPositive && !hasNegative then (Positive, NoRisk)
      else (Neutral, NoRisk);
    Analysis(Known(sentiment), Known(risk), JNum(FallbackConfidence), JStr(FallbackReasoning), JArr([]))
  }

  /** Which of the three verdicts the fallback gives, in terms of the two keyword lists. */
  lemma FallbackVerdict(text: string)
    ensures var r := Fallback(text);
      && ((r.sentiment == Known(Negative) && r.risk == Known(LowRisk)) <==> HasNegative(text) && !HasPositive(text))
      && ((r.sentiment == Known(Positive) && r.risk == Known(NoRisk)) <==> HasPositive(text) && !HasNegative(text))
      && ((r.sentiment == Known(Neutral) && r.risk == Known(NoRisk)) <==> HasNegative(text) == HasPositive(text))
  {
  }

  /** The fallback never reports medium or high risk, and its other fields are constants. */
  lemma FallbackFixedFields(text: string)
    ensures var r := Fallback(text);
      && r.risk != Known(MediumRisk) && r.risk != Known(HighRisk)
      && (r.risk == Known(LowRisk) <==> r.sentiment == Known(Negative))
      && r.confidence == JNum(0.6)
      && r.reasoning == JStr("Fallback keyword-based analysis")
      && r.keyPhrases == JArr([])
  {
  }

  /** The fallback does not depend on letter case: lowering the text first changes nothing. */
  lemma FallbackIgnoresCase(text: string)
    ensures Fallback(Text.Lower(text)) == Fallback(text)
  {
    Text.LowerIdempotent(text);
  }

  /** A keyword found in a piece of text is still found once the text is embedded in more text. */
  lemma KeywordsPersist(pre: string, s: string, post: string)
    ensures HasNegative(s) ==> HasNegative(pre + s + post)
    ensures HasPositive(s) ==> HasPositive(pre + s + post)
  {
    Text.LowerConcat(pre, s);
    Text.LowerConcat(pre + s, post);
    var ls := Text.Lower(s);
    assert Text.Lower(pre + s + post) == Text.Lower(pre) + ls + Text.Lower(post);
    if HasNegative(s) {
      var k :| 0 <= k < |NegativeWords| && Text.Includes(ls, NegativeWords[k]);
      Text.IncludesInContext(Text.Lower(pre), ls, Text.Lower(post), NegativeWords[k]);
    }
    if HasPositive(s) {
      var k :| 0 <= k < |PositiveWords| && Text.Includes(ls, PositiveWords[k]);
      Text.IncludesInContext(Text.Lower(pre), ls, Text.Lower(post), PositiveWords[k]);
    }
  }

  /** A keyword in either part of a joined text is a keyword of the whole. */
  lemma KeywordsInConcat(s: string, t: string)
    ensures HasNegative(s) || HasNegative(t) ==> HasNegative(s + t)
    ensures HasPositive(s) || HasPositive(t) ==> HasPositive(s + t)
  {
    assert [] + s + t == s + t;
    assert s + t + [] == s + t;
    KeywordsPersist([], s, t);
    KeywordsPersist(s, t, []);
  }

  /** Text holding both a positive and a negative keyword is neutral, whichever comes first. */
  lemma MixedKeywordsAreNeutral(s: string, t: string)
    requires HasPositive(s) && HasNegative(t)
    ensures Fallback(s + t).sentiment == Known(Neutral) && Fallback(s + t).risk == Known(NoRisk)
    ensures Fallback(t + s).sentiment == Known(Neutral) && Fallback(t + s).risk == Known(NoRisk)
  {
    KeywordsInConcat(s, t);
    KeywordsInConcat(t, s);
    FallbackVerdict(s + t);
    FallbackVerdict(t + s);
  }

  // ---------------------------------------------------------------------
  // Reply parsing
  // ---------------------------------------------------------------------

  /** Position of the first occurrence of `c` in `s`. */
  function IndexOf(s: string, c: char): (r: Option<nat>)
    ensures r.Some? ==> r.value < |s| && s[r.value] == c && forall k :: 0 <= k < r.value ==> s[k] != c
    ensures r.None? ==> forall k :: 0 <= k < |s| ==> s[k] != c
  {
    if s == [] then None
    else if s[0] == c then Some(0)
    else match IndexOf(s[1..], c)
      case None => None
      case Some(i) => Some(i + 1)
  }

  /** Position of the last occurrence of `c` in `s`. */
  function LastIndexOf(s: string, c: char): (r: Option<nat>)
    ensures r.Some? ==> r.value < |s| && s[r.value] == c && forall k :: r.value < k < |s| ==> s[k] != c
    ensures r.None? ==> forall k :: 0 <= k < |s| ==> s[k] != c
  {
    if s == [] then None
    else if s[|s| - 1] == c then Some(|s| - 1)
    else LastIndexOf(s[..|s| - 1], c)
  }

  /**
   * The bounds of the match of the greedy pattern `\{[\s\S]*\}`: the first
   * `{` and the last `}`. There is no match exactly when no `}` follows a `{`.
   */
  function JsonMatch(s: string): (r: Option<(nat, nat)>)
    ensures r.None? <==> forall i, j :: 0 <= i < j < |s| && s[i] == '{' ==> s[j] != '}'
    ensures r.Some? ==>
      && r.value.0 < r.value.1 < |s|
      && s[r.value.0] == '{' && s[r.value.1] == '}'
      && (forall k :: 0 <= k < r.value.0 ==> s[k] != '{')
      && (forall k :: r.value.1 < k < |s| ==> s[k] != '}')
  {
    match IndexOf(s, '{')
    case None => None
    case Some(i) =>
      match LastIndexOf(s, '}')
      case None => None
      case Some(j) => if i < j then Some((i, j)) else None
  }

  /** The text of that match: what is handed to `JSON.parse`. */
  function JsonSpan(s: string): Option<string> {
    match JsonMatch(s)
    case None => None
    case Some((i, j)) => Some(s[i..j + 1])
  }

  /** An object written between chatter that has no `{` before it and no `}` after it is extracted exactly. */
  lemma JsonSpanInChatter(pre: string, body: string, post: string)
    requires |body| >= 2 && body[0] == '{' && body[|body| - 1] == '}'
    requires forall k :: 0 <= k < |pre| ==> pre[k] != '{'
    requires forall k :: 0 <= k < |post| ==> post[k] != '}'
    ensures JsonSpan(pre + body + post) == Some(body)
  {
    var s := pre + body + post;
    var i, j := |pre|, |pre| + |body| - 1;
    assert s[i] == '{' && s[j] == '}';
    var m := JsonMatch(s);
    assert m.Some?;
    var (a, b) := m.value;
    assert a == i && b == j;
    assert s[i..j + 1] == body;
  }

  /** JavaScript truthiness of a property value; an absent property is `undefined`. */
  predicate Truthy(o: Option<JsValue>) {
    match o
    case None => false
    case Some(v) =>
      match v
      case JNull => false
      case JBool(b) => b
      case JNum(n) => n != 0.0
      case JStr(s) => s != ""
      case JArr(_) => true
      case JObj(_) => true
  }

  /** `a || d` for a property value `a`. */
  function OrElse(o: Option<JsValue>, d: JsValue): JsValue {
    if Truthy(o) then o.value else d
  }

  /** The value of `key` among object members; `JSON.parse` keeps the last duplicate. */
  function Member(members: seq<(string, JsValue)>, key: string): Option<JsValue> {
    if members == [] then None
    else if members[|members| - 1].0 == key then Some(members[|members| - 1].1)
    else Member(members[..|members| - 1], key)
  }

  /** Property access `v.key` on a non-null parsed value. */
  function Property(v: JsValue, key: string): Option<JsValue>
    requires v != JNull
  {
    match v
    case JObj(members) => Member(members, key)
    case _ => None
  }

  function SentimentName(s: Sentiment): string {
    match s
    case Positive => "positive"
    case Neutral => "neutral"
    case Negative => "negative"
  }

  function RiskName(r: Risk): string {
    match r
    case NoRisk => "none"
    case LowRisk => "low"
    case MediumRisk => "medium"
    case HighRisk => "high"
  }

  /** Reads a reported sentiment; a value naming no sentiment is kept as it is. */
  function AsSentiment(v: JsValue): Label<Sentiment> {
    if v == JStr("positive") then Known(Positive)
    else if v == JStr("neutral") then Known(Neutral)
    else if v == JStr("negative") then Known(Negative)
    else Unrecognized(v)
  }

  /** Reads a reported risk; a value naming no risk is kept as it is. */
  function AsRisk(v: JsValue): Label<Risk> {
    if v == JStr("none") then Known(NoRisk)
    else if v == JStr("low") then Known(LowRisk)
    else if v == JStr("medium") then Known(MediumRisk)
    else if v == JStr("high") then Known(HighRisk)
    else Unrecognized(v)
  }

  /** Reading a label is the inverse of writing its name. */
  lemma LabelNamesRoundTrip(s: Sentiment, r: Risk, v: JsValue)
    ensures AsSentiment(JStr(SentimentName(s))) == Known(s)
    ensures AsRisk(JStr(RiskName(r))) == Known(r)
    ensures AsSentiment(v).Known? ==> v == JStr(SentimentName(AsSentiment(v).value))
    ensures AsRisk(v).Known? ==> v == JStr(RiskName(AsRisk(v).value))
    ensures AsSentiment(v).Unrecognized? ==> AsSentiment(v).raw == v
    ensures AsRisk(v).Unrecognized? ==> AsRisk(v).raw == v
  {
  }

  const DefaultConfidence: real := 0.5
  const DefaultReasoning: string := "Analysis completed"

  /** Builds the result from a parsed object, each missing or falsy field taking its default. */
  function FromParsed(v: JsValue): Analysis
    requires v != JNull
  {
    var sentiment := Property(v, "sentiment");
    var risk := Property(v, "hateSpeechRisk");
    Analysis(
      if Truthy(sentiment) then AsSentiment(sentiment.value) else Known(Neutral),
      if Truthy(risk) then AsRisk(risk.value) else Known(NoRisk),
      OrElse(Property(v, "confidence"), JNum(DefaultConfidence)),
      OrElse(Property(v, "reasoning"), JStr(DefaultReasoning)),
      OrElse(Property(v, "keyPhrases"), JArr([])))
  }

  const ReportedKeys: seq<string> := ["sentiment", "hateSpeechRisk", "confidence", "reasoning", "keyPhrases"]

  /** A parsed value whose five fields are all missing or falsy yields the all-defaults result. */
  lemma MissingFieldsDefault(v: JsValue)
    requires v != JNull
    requires forall k :: 0 <= k < |ReportedKeys| ==> !Truthy(Property(v, ReportedKeys[k]))
    ensures FromParsed(v) == Analysis(Known(Neutral), Known(NoRisk), JNum(0.5), JStr("Analysis completed"), JArr([]))
  {
    assert !Truthy(Property(v, ReportedKeys[0])) && !Truthy(Property(v, ReportedKeys[1]));
    assert !Truthy(Property(v, ReportedKeys[2])) && !Truthy(Property(v, ReportedKeys[3]));
    assert !Truthy(Property(v, ReportedKeys[4]));
  }

  /**
   * Each field defaults on its own: a missing or falsy field takes its
   * default, and a truthy one is taken over (a label read through its name).
   */
  lemma FieldDefaults(v: JsValue)
    requires v != JNull
    ensures var r := FromParsed(v);
      && (!Truthy(Property(v, "sentiment")) ==> r.sentiment == Known(Neutral))
      && (Truthy(Property(v, "sentiment")) ==> r.sentiment == AsSentiment(Property(v, "sentiment").value))
      && (!Truthy(Property(v, "hateSpeechRisk")) ==> r.risk == Known(NoRisk))
      && (Truthy(Property(v, "hateSpeechRisk")) ==> r.risk == AsRisk(Property(v, "hateSpeechRisk").value))
      && (!Truthy(Property(v, "confidence")) ==> r.confidence == JNum(0.5))
      && (Truthy(Property(v, "confidence")) ==> r.confidence == Property(v, "confidence").value)
      && (!Truthy(Property(v, "reasoning")) ==> r.reasoning == JStr("Analysis completed"))
      && (Truthy(Property(v, "reasoning")) ==> r.reasoning == Property(v, "reasoning").value)
      && (!Truthy(Property(v, "keyPhrases")) ==> r.keyPhrases == JArr([]))
      && (Truthy(Property(v, "keyPhrases")) ==> r.keyPhrases == Property(v, "keyPhrases").value)
  {
  }

  /** Property access on a two-member object: the later member wins. */
  lemma MemberOfPair(a: (string, JsValue), b: (string, JsValue), key: string)
    ensures Member([a, b], key) == if b.0 == key then Some(b.1) else if a.0 == key then Some(a.1) else None
  {
    assert [a, b][..1] == [a] && [a][..0] == [];
    assert Member([a, b], key) == if b.0 == key then Some(b.1) else Member([a], key);
    assert Member([a], key) == if a.0 == key then Some(a.1) else Member([], key);
  }

  /** A reply naming only the two labels keeps them and takes the other three defaults. */
  lemma PartialReplyDefaults()
    ensures FromParsed(JObj([("sentiment", JStr("negative")), ("hateSpeechRisk", JStr("high"))]))
            == Analysis(Known(Negative), Known(HighRisk), JNum(0.5), JStr("Analysis completed"), JArr([]))
  {
    var a, b := ("sentiment", JStr("negative")), ("hateSpeechRisk", JStr("high"));
    var v := JObj([a, b]);
    MemberOfPair(a, b, "sentiment");
    MemberOfPair(a, b, "hateSpeechRisk");
    MemberOfPair(a, b, "confidence");
    MemberOfPair(a, b, "reasoning");
    MemberOfPair(a, b, "keyPhrases");
    assert "sentiment" != b.0 by { assert "sentiment"[0] != b.0[0]; }
    assert "confidence" != a.0 && "confidence" != b.0 by { assert "confidence"[0] != a.0[0] && "confidence"[0] != b.0[0]; }
    assert "reasoning" != a.0 && "reasoning" != b.0 by { assert "reasoning"[0] != a.0[0] && "reasoning"[0] != b.0[0]; }
    assert "keyPhrases" != a.0 && "keyPhrases" != b.0 by { assert "keyPhrases"[0] != a.0[0] && "keyPhrases"[0] != b.0[0]; }
    FieldDefaults(v);
  }

  /** A reported confidence of zero is falsy, so it is replaced by the default 0.5; any other number is kept. */
  lemma ReportedConfidence(v: JsValue, c: real)
    requires v != JNull && Property(v, "confidence") == Some(JNum(c))
    ensures FromParsed(v).confidence == if c == 0.0 then JNum(0.5) else JNum(c)
  {
  }

  /** With duplicate keys the last one wins: a member with no later member of the same key is the one found. */
  lemma {:induction false} MemberFound(members: seq<(string, JsValue)>, i: nat, key: string)
    requires i < |members| && members[i].0 == key
    requires forall j :: i < j < |members| ==> members[j].0 != key
    ensures Member(members, key) == Some(members[i].1)
    decreases |members|
  {
    if i < |members| - 1 {
      var init := members[..|members| - 1];
      forall j | i <= j < |init|
        ensures init[j] == members[j]
      {
      }
      MemberFound(init, i, key);
    }
  }

  /** The five reported field names are pairwise different. */
  lemma ReportedKeysDistinct()
    ensures forall i, j :: 0 <= i < j < |ReportedKeys| ==> ReportedKeys[i] != ReportedKeys[j]
  {
    assert ReportedKeys[0][0] != ReportedKeys[3][0];
    assert ReportedKeys[2][0] != ReportedKeys[4][0];
  }

  /** A well-formed reply object is taken over field for field. */
  lemma WellFormedReplyKept(s: Sentiment, r: Risk, c: real, reasoning: string, phrases: seq<JsValue>)
    requires c != 0.0 && reasoning != ""
    ensures var v := JObj([("sentiment", JStr(SentimentName(s))), ("hateSpeechRisk", JStr(RiskName(r))),
                           ("confidence", JNum(c)), ("reasoning", JStr(reasoning)), ("keyPhrases", JArr(phrases))]);
      FromParsed(v) == Analysis(Known(s), Known(r), JNum(c), JStr(reasoning), JArr(phrases))
  {
    var values := [JStr(SentimentName(s)), JStr(RiskName(r)), JNum(c), JStr(reasoning), JArr(phrases)];
    var m := [(ReportedKeys[0], values[0]), (ReportedKeys[1], values[1]), (ReportedKeys[2], values[2]),
              (ReportedKeys[3], values[3]), (ReportedKeys[4], values[4])];
    ReportedKeysDistinct();
    forall i | 0 <= i < 5
      ensures Member(m, ReportedKeys[i]) == Some(values[i])
    {
      MemberFound(m, i, ReportedKeys[i]);
    }
    LabelNamesRoundTrip(s, r, JNull);
    assert Property(JObj(m), "sentiment") == Some(values[0]);
    assert Property(JObj(m), "hateSpeechRisk") == Some(values[1]);
  }

  /**
   * Parses a reply text. `parse` is `JSON.parse`, `None` meaning it threw.
   * Property access on `null` throws too; every throw falls back to
   * classifying the reply text itself.
   */
  function ParseResponse(text: string, parse: string -> Option<JsValue>): Analysis {
    match JsonSpan(text)
    case None => Fallback(text)
    case Some(span) =>
      match parse(span)
      case None => Fallback(text)
      case Some(v) => if v == JNull then Fallback(text) else FromParsed(v)
  }

  /** The three paths of the parser: no span, a span the parser rejects, and a parsed object. */
  lemma ParseResponsePaths(text: string, parse: string -> Option<JsValue>)
    ensures JsonMatch(text).None? ==> ParseResponse(text, parse) == Fallback(text)
    ensures JsonMatch(text).Some? ==>
      var (i, j) := JsonMatch(text).value;
      var span := text[i..j + 1];
      && span[0] == '{' && span[|span| - 1] == '}'
      && (parse(span).None? || parse(span) == Some(JNull) ==> ParseResponse(text, parse) == Fallback(text))
      && (parse(span).Some? && parse(span) != Some(JNull) ==> ParseResponse(text, parse) == FromParsed(parse(span).value))
  {
  }

  // ---------------------------------------------------------------------
  // The single-comment call
  // ---------------------------------------------------------------------

  /**
   * What the remote scorer did: the request threw, the status was not OK,
   * or a body arrived, with `text` the string at
   * `candidates[0].content.parts[0].text` when the body was JSON and that
   * path held a string.
   */
  datatype ScorerReply = TransportError | Rejected(status: int) | Answered(text: Option<string>)

  /** The error `toLowerCase` raises on an undefined comment text. */
  datatype AnalyzeError = ContentUndefined

  predicate Delivered(reply: ScorerReply) {
    reply.Answered? && reply.text.Some?
  }

  /**
   * One classification. A delivered text is parsed; every other outcome falls
   * back on the comment's own text, which throws when that text is undefined.
   */
  function AnalyzeComment(comment: CommentData, reply: ScorerReply, parse: string -> Option<JsValue>): Result<Analysis, AnalyzeError>
  {
    match reply
    case Answered(Some(t)) => Success(ParseResponse(t, parse))
    case _ =>
      match comment.content
      case Some(s) => Success(Fallback(s))
      case None => Failure(ContentUndefined)
  }

  /** The call returns a result unless the scorer failed and the comment text is undefined. */
  lemma AnalyzeCommentOutcomes(comment: CommentData, reply: ScorerReply, parse: string -> Option<JsValue>)
    ensures AnalyzeComment(comment, reply, parse).Failure? <==> !Delivered(reply) && comment.content.None?
    ensures Delivered(reply) ==> AnalyzeComment(comment, reply, parse) == Success(ParseResponse(reply.text.value, parse))
    ensures !Delivered(reply) && comment.content.Some? ==>
      AnalyzeComment(comment, reply, parse) == Success(Fallback(comment.content.value))
  {
  }

  /** The classifier as its callers see it: `score(k, data)` is the result of their `k`-th call, on `data`. */
  type Scorer = (nat, CommentData) -> Result<Analysis, AnalyzeError>

  /** `analyzeComment` with `reply(k)` the model's answer to the `k`-th call. */
  function ScorerOf(reply: nat -> ScorerReply, parse: string -> Option<JsValue>): Scorer {
    (k: nat, data: CommentData) => AnalyzeComment(data, reply(k), parse)
  }

  // ---------------------------------------------------------------------
  // The prompt
  // ---------------------------------------------------------------------

  const ThaiInstruction: string := "This comment is in Thai language. Please analyze accordingly."
  const EnglishInstruction: string := "This comment is in English language."

  function LanguageInstruction(language: Option<Language>): string {
    if language == Some(Th) then ThaiInstruction else EnglishInstruction
  }

  const PromptIntro: string :=
    "\nAnalyze the following social media comment for sentiment and hate speech risk.\n\n"

  const PromptFormat: string :=
    "\"\n\nPlease provide analysis in the following JSON format:\n{\n"
    + "  \"sentiment\": \"positive|neutral|negative\",\n"
    + "  \"hateSpeechRisk\": \"none|low|medium|high\",\n"
    + "  \"confidence\": 0.0-1.0,\n"
    + "  \"reasoning\": \"Brief explanation of the analysis\",\n"
    + "  \"keyPhrases\": [\"phrase1\", \"phrase2\", \"phrase3\"]\n"
    + "}\n\nSentiment Guidelines:\n"
    + "- Positive: Expresses satisfaction, praise, or positive emotions\n"
    + "- Neutral: Factual, informational, or balanced tone\n"
    + "- Negative: Expresses dissatisfaction, criticism, or negative emotions\n\n"
    + "Hate Speech Risk Guidelines:\n"
    + "- None: No offensive language or targeting\n"
    + "- Low: Mild criticism or frustration without targeting groups\n"
    + "- Medium: Strong negative language, personal attacks, or mild discriminatory language\n"
    + "- High: Clear hate speech, threats, severe discriminatory language, or incitement to violence\n\n"
    + "Consider cultural context for Thai language comments, including local expressions and cultural nuances.\n"

  /** The comment's platform, author and text, between the language instruction and the format block. */
  function PromptDetails(comment: CommentData): string {
    "\n\nPlatform: " + PlatformName(comment.platform)
    + "\nAuthor: " + Text.JsText(comment.author)
    + "\nComment: \"" + Text.JsText(comment.content)
  }

  /** The prompt around a given format block. */
  function PromptWith(comment: CommentData, format: string): string {
    PromptIntro + LanguageInstruction(comment.language) + (PromptDetails(comment) + format)
  }

  /** `buildAnalysisPrompt`. */
  function BuildPrompt(comment: CommentData): string {
    PromptWith(comment, PromptFormat)
  }

  /** The middle part of a three-part concatenation is found at its own offset. */
  lemma MiddleSlice(a: string, b: string, c: string)
    ensures |a + b + c| == |a| + |b| + |c|
    ensures (a + b + c)[|a|..|a| + |b|] == b
  {
    var s := a + b + c;
    forall k | 0 <= k < |b|
      ensures s[|a|..|a| + |b|][k] == b[k]
    {
      assert s[|a| + k] == b[k];
    }
  }

  /** The two instructions differ at offset 19, and the details after them are long enough to cover the Thai one. */
  lemma InstructionFacts(comment: CommentData)
    ensures |ThaiInstruction| <= |EnglishInstruction| + |PromptDetails(comment)|
    ensures ThaiInstruction[19] == 'T' && EnglishInstruction[19] == 'E'
  {
  }

  /** Whatever the format block, the instruction right after the introduction is the Thai one exactly when the language is Thai. */
  lemma PromptWithInstruction(comment: CommentData, format: string)
    ensures var p, at := PromptWith(comment, format), |PromptIntro|;
      && |p| >= at + |ThaiInstruction|
      && (p[at..at + |ThaiInstruction|] == ThaiInstruction <==> comment.language == Some(Th))
      && (comment.language != Some(Th) ==> p[at..at + |EnglishInstruction|] == EnglishInstruction)
  {
    var p, at := PromptWith(comment, format), |PromptIntro|;
    var instr, rest := LanguageInstruction(comment.language), PromptDetails(comment) + format;
    MiddleSlice(PromptIntro, instr, rest);
    InstructionFacts(comment);
    assert p == PromptIntro + instr + rest;
    if comment.language != Some(Th) {
      assert p[at + 19] == instr[19];
      assert p[at..at + |ThaiInstruction|][19] != ThaiInstruction[19];
    }
  }
}
