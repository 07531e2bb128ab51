/**
 * The data contracts of the pipeline: the enumerations of the comments and
 * alerts tables, a model of the JavaScript values a classifier reply can
 * carry, and the rows the pipeline writes.
 */
module Types {
  import opened Wrappers

  datatype Platform = Facebook | Twitter

  datatype Language = En | Th

  /** Sentiment values of the comments table. */
  datatype Sentiment = Positive | Neutral | Negative

  /** Hate-speech risk values of the comments table. */
  datatype Risk = NoRisk | LowRisk | MediumRisk | HighRisk

  /** Alert types of the alerts table. */
  datatype AlertType = HighHateSpeech | SentimentSpike | VolumeSpike

  /** Alert severities of the alerts table. */
  datatype Severity = Low | Medium | High | Critical

  /** A value produced by `JSON.parse`. Numbers are reals (no NaN, no infinities). */
  datatype JsValue =
    | JNull
    | JBool(b: bool)
    | JNum(n: real)
    | JStr(s: string)
    | JArr(items: seq<JsValue>)
    | JObj(members: seq<(string, JsValue)>)

  /**
   * A field that should hold one of the enumeration's names. The parser keeps
   * whatever truthy value the model reported, so a field may also hold a
   * value that names no member of the enumeration.
   */
  datatype Label<T> = Known(value: T) | Unrecognized(raw: JsValue)

  /** The classifier's result: sentiment, risk, confidence, reasoning, key phrases. */
  datatype Analysis = Analysis(
    sentiment: Label<Sentiment>,
    risk: Label<Risk>,
    confidence: JsValue,
    reasoning: JsValue,
    keyPhrases: JsValue)

  /** The classifier's input. `content` and `author` are `None` when the wire record lacked them. */
  datatype CommentData = CommentData(
    content: Option<string>,
    author: Option<string>,
    platform: Platform,
    language: Option<Language>)

  /** A row of the comments table as the orchestrator writes it. */
  datatype CommentRow = CommentRow(
    socialAccountId: string,
    platform: Platform,
    postId: string,
    content: Option<string>,
    author: Option<string>,
    authorId: Option<string>,
    timestamp: Option<string>,
    sentiment: Label<Sentiment>,
    risk: Label<Risk>,
    confidence: JsValue,
    analysis: Analysis)

  /** A row of the social_accounts table; `lastSync` is a time instant. */
  datatype Account = Account(
    id: string,
    userId: string,
    platform: Platform,
    accountId: string,
    accessToken: string,
    isActive: bool,
    lastSync: int)

  /** The numbers an alert description is written from. */
  datatype AlertText =
    | HateCountText(count: nat)
    | NegativeShareText(negatives: nat, total: nat)

  /** A row of the alerts table as the alert evaluator inserts it. */
  datatype AlertRow = AlertRow(
    userId: string,
    alertType: AlertType,
    severity: Severity,
    title: string,
    description: AlertText,
    socialAccountId: string,
    relatedComments: seq<string>)

  function PlatformName(p: Platform): string {
    match p
    case Facebook => "facebook"
    case Twitter => "twitter"
  }

  /** The elements of `s` that satisfy `p`, in order (`Array.prototype.filter`). */
  function Filter<T>(s: seq<T>, p: T -> bool): (r: seq<T>)
    ensures |r| <= |s|
    ensures forall k :: 0 <= k < |r| ==> p(r[k])
  {
    if s == [] then [] else (if p(s[0]) then [s[0]] else []) + Filter(s[1..], p)
  }

  /** The filter of a concatenation is the concatenation of the filters, so order is kept. */
  lemma {:induction false} FilterConcat<T>(s: seq<T>, t: seq<T>, p: T -> bool)
    ensures Filter(s + t, p) == Filter(s, p) + Filter(t, p)
  {
    if s == [] {
      assert s + t == t;
    } else {
      assert (s + t)[0] == s[0];
      assert (s + t)[1..] == s[1..] + t;
      FilterConcat(s[1..], t, p);
    }
  }

  /** An element is kept by the filter exactly when it occurs and satisfies the predicate. */
  lemma {:induction false} FilterMembers<T>(s: seq<T>, p: T -> bool, x: T)
    ensures x in Filter(s, p) <==> x in s && p(x)
  {
    if s != [] {
      FilterMembers(s[1..], p, x);
      assert x in s <==> x == s[0] || x in s[1..];
    }
  }

  /** The filter is empty exactly when no element satisfies the predicate. */
  lemma {:induction false} FilterEmpty<T>(s: seq<T>, p: T -> bool)
    ensures Filter(s, p) == [] <==> forall k :: 0 <= k < |s| ==> !p(s[k])
  {
    if s != [] {
      FilterEmpty(s[1..], p);
      assert forall k :: 1 <= k < |s| ==> s[k] == s[1..][k - 1];
    }
  }

  /** A filter keeps everything exactly when every element satisfies the predicate. */
  lemma {:induction false} FilterAll<T>(s: seq<T>, p: T -> bool)
    requires forall k :: 0 <= k < |s| ==> p(s[k])
    ensures Filter(s, p) == s
  {
    if s != [] {
      FilterAll(s[1..], p);
    }
  }
}
