/** The alert evaluator's two rules over one freshly inserted batch of comments. */
module Alerts {
  import opened Wrappers
  import opened Types

  const HateTitle: string := "High Hate Speech Detected"
  const SpikeTitle: string := "Negative Sentiment Spike"
  /** The spike rule needs at least this many comments in the batch. */
  const SpikeMinComments: nat := 10
  /** The spike rule needs strictly more than this percentage of negative comments. */
  const SpikePercent: nat := 50

  predicate IsHighRisk(c: CommentRow) {
    c.risk == Known(HighRisk)
  }

  predicate IsNegative(c: CommentRow) {
    c.sentiment == Known(Negative)
  }

  function PostIds(rows: seq<CommentRow>): (r: seq<string>)
    ensures |r| == |rows|
    ensures forall k :: 0 <= k < |rows| ==> r[k] == rows[k].postId
  {
    if rows == [] then [] else [rows[0].postId] + PostIds(rows[1..])
  }

  function HighRiskComments(batch: seq<CommentRow>): seq<CommentRow> {
    Filter(batch, IsHighRisk)
  }

  function NegativeComments(batch: seq<CommentRow>): seq<CommentRow> {
    Filter(batch, IsNegative)
  }

  /**
   * `negative / length * 100 > 50 && length >= 10`, the percentage compared
   * in integers.
   */
  predicate SpikeCondition(batch: seq<CommentRow>) {
    |NegativeComments(batch)| * 100 > SpikePercent * |batch| && |batch| >= SpikeMinComments
  }

  /** The high-hate-speech rule. */
  function HateSpeechAlert(userId: string, accountId: string, batch: seq<CommentRow>): Option<AlertRow> {
    var high := HighRiskComments(batch);
    if |high| > 0 then
      Some(AlertRow(userId, HighHateSpeech, Critical, HateTitle, HateCountText(|high|), accountId, PostIds(high)))
    else None
  }

  /** The sentiment-spike rule. */
  function SpikeAlert(userId: string, accountId: string, batch: seq<CommentRow>): Option<AlertRow> {
    var negative := NegativeComments(batch);
    if SpikeCondition(batch) then
      Some(AlertRow(userId, SentimentSpike, High, SpikeTitle, NegativeShareText(|negative|, |batch|),
                    accountId, PostIds(negative)))
    else None
  }

  function OptionToSeq<T>(o: Option<T>): seq<T> {
    match o
    case Some(x) => [x]
    case None => []
  }

  /**
   * The alerts the evaluator creates, in creation order. `hateStored` and
   * `spikeStored` say whether each insert succeeded; a failed insert is only logged.
   */
  function CreatedAlerts(userId: string, accountId: string, batch: seq<CommentRow>,
                         hateStored: bool, spikeStored: bool): (r: seq<AlertRow>)
  {
    (if hateStored then OptionToSeq(HateSpeechAlert(userId, accountId, batch)) else [])
    + (if spikeStored then OptionToSeq(SpikeAlert(userId, accountId, batch)) else [])
  }

  /** An id is among the post ids exactly when some row carries it. */
  lemma PostIdsMembers(rows: seq<CommentRow>, id: string)
    ensures id in PostIds(rows) <==> exists k :: 0 <= k < |rows| && rows[k].postId == id
  {
    var ids := PostIds(rows);
    if id in ids {
      var k :| 0 <= k < |ids| && ids[k] == id;
      assert rows[k].postId == id;
    }
  }

  lemma {:induction false} PostIdsConcat(r1: seq<CommentRow>, r2: seq<CommentRow>)
    ensures PostIds(r1 + r2) == PostIds(r1) + PostIds(r2)
  {
    assert |PostIds(r1 + r2)| == |PostIds(r1) + PostIds(r2)|;
    forall k | 0 <= k < |r1 + r2|
      ensures PostIds(r1 + r2)[k] == (PostIds(r1) + PostIds(r2))[k]
    {
      if k < |r1| {
        assert (r1 + r2)[k] == r1[k];
      } else {
        assert (r1 + r2)[k] == r2[k - |r1|];
      }
    }
  }

  /** The post id of a row is among the post ids. */
  lemma RowPostId(rows: seq<CommentRow>, row: CommentRow)
    requires row in rows
    ensures row.postId in PostIds(rows)
  {
    var k :| 0 <= k < |rows| && rows[k] == row;
    assert PostIds(rows)[k] == row.postId;
  }

  /** The post ids of the comments a filter keeps, as a membership statement. */
  lemma FilteredPostIds(batch: seq<CommentRow>, p: CommentRow -> bool, id: string)
    ensures id in PostIds(Filter(batch, p)) <==> exists k :: 0 <= k < |batch| && p(batch[k]) && batch[k].postId == id
  {
    var kept := Filter(batch, p);
    PostIdsMembers(kept, id);
    if id in PostIds(kept) {
      var m :| 0 <= m < |kept| && kept[m].postId == id;
      FilterMembers(batch, p, kept[m]);
      var k :| 0 <= k < |batch| && batch[k] == kept[m];
      assert p(batch[k]) && batch[k].postId == id;
    }
    if exists k :: 0 <= k < |batch| && p(batch[k]) && batch[k].postId == id {
      var k :| 0 <= k < |batch| && p(batch[k]) && batch[k].postId == id;
      FilterMembers(batch, p, batch[k]);
      RowPostId(kept, batch[k]);
    }
  }

  /**
   * The hate rule fires exactly when some comment of the batch is high-risk;
   * its alert is critical, counts those comments and relates exactly their post ids.
   */
  lemma HateRule(userId: string, accountId: string, batch: seq<CommentRow>)
    ensures var a := HateSpeechAlert(userId, accountId, batch);
      && (a.Some? <==> exists k :: 0 <= k < |batch| && batch[k].risk == Known(HighRisk))
      && (a.Some? ==>
            && a.value.alertType == HighHateSpeech && a.value.severity == Critical
            && a.value.description == HateCountText(|HighRiskComments(batch)|)
            && a.value.userId == userId && a.value.socialAccountId == accountId
            && a.value.relatedComments == PostIds(HighRiskComments(batch))
            && |a.value.relatedComments| == |HighRiskComments(batch)|
            && forall id :: id in a.value.relatedComments <==>
                 exists k :: 0 <= k < |batch| && batch[k].risk == Known(HighRisk) && batch[k].postId == id)
  {
    FilterEmpty(batch, IsHighRisk);
    forall id {
      FilteredPostIds(batch, IsHighRisk, id);
    }
  }

  /**
   * The spike rule fires exactly when the batch has at least ten comments and
   * more than half of them are negative; its alert is high and relates exactly
   * the negative comments' post ids.
   */
  lemma SpikeRule(userId: string, accountId: string, batch: seq<CommentRow>)
    ensures var a := SpikeAlert(userId, accountId, batch);
      && (a.Some? <==> |batch| >= 10 && 2 * |NegativeComments(batch)| > |batch|)
      && (a.Some? ==>
            && a.value.alertType == SentimentSpike && a.value.severity == High
            && a.value.description == NegativeShareText(|NegativeComments(batch)|, |batch|)
            && a.value.userId == userId && a.value.socialAccountId == accountId
            && a.value.relatedComments == PostIds(NegativeComments(batch))
            && |a.value.relatedComments| == |NegativeComments(batch)|
            && forall id :: id in a.value.relatedComments <==>
                 exists k :: 0 <= k < |batch| && batch[k].sentiment == Known(Negative) && batch[k].postId == id)
  {
    forall id {
      FilteredPostIds(batch, IsNegative, id);
    }
  }

  /** Three comments of which one is high-risk give one alert relating exactly that comment. */
  lemma HateRuleExample(userId: string, accountId: string, batch: seq<CommentRow>)
    requires |batch| == 3 && IsHighRisk(batch[1]) && !IsHighRisk(batch[0]) && !IsHighRisk(batch[2])
    ensures var a := HateSpeechAlert(userId, accountId, batch);
      a.Some? && a.value.relatedComments == [batch[1].postId]
  {
    assert batch == [batch[0]] + ([batch[1]] + [batch[2]]);
    FilterConcat([batch[0]], [batch[1]] + [batch[2]], IsHighRisk);
    FilterConcat([batch[1]], [batch[2]], IsHighRisk);
    assert HighRiskComments(batch) == [batch[1]];
  }

  /** The boundary cases: 5 of 10 does not fire, 6 of 10 does, and no batch under 10 fires. */
  lemma SpikeThresholds(userId: string, accountId: string, batch: seq<CommentRow>)
    ensures |batch| == 10 && |NegativeComments(batch)| == 5 ==> SpikeAlert(userId, accountId, batch).None?
    ensures |batch| == 10 && |NegativeComments(batch)| == 6 ==> SpikeAlert(userId, accountId, batch).Some?
    ensures |batch| < 10 ==> SpikeAlert(userId, accountId, batch).None?
  {
  }

  /** The rules are independent: at most one alert of each type, hate-speech first. */
  lemma AtMostOneOfEach(userId: string, accountId: string, batch: seq<CommentRow>, hateStored: bool, spikeStored: bool)
    ensures var r := CreatedAlerts(userId, accountId, batch, hateStored, spikeStored);
      && |r| == (if hateStored && HateSpeechAlert(userId, accountId, batch).Some? then 1 else 0)
                + (if spikeStored && SpikeAlert(userId, accountId, batch).Some? then 1 else 0)
      && (forall k :: 0 <= k < |r| ==> r[k].userId == userId && r[k].socialAccountId == accountId)
      && (forall k :: 0 <= k < |r| ==> r[k].alertType != VolumeSpike)
      && (forall k, m :: 0 <= k < m < |r| ==> r[k].alertType != r[m].alertType)
      && (|r| == 2 ==> r[0].alertType == HighHateSpeech && r[1].alertType == SentimentSpike)
      && ((exists k :: 0 <= k < |r| && r[k].alertType == HighHateSpeech) <==>
            hateStored && HateSpeechAlert(userId, accountId, batch).Some?)
      && ((exists k :: 0 <= k < |r| && r[k].alertType == SentimentSpike) <==>
            spikeStored && SpikeAlert(userId, accountId, batch).Some?)
  {
    var r := CreatedAlerts(userId, accountId, batch, hateStored, spikeStored);
    var h, sp := HateSpeechAlert(userId, accountId, batch), SpikeAlert(userId, accountId, batch);
    if hateStored && h.Some? {
      assert r[0] == h.value;
    }
    if spikeStored && sp.Some? {
      assert r[|r| - 1] == sp.value;
    }
  }

  /** Evaluated on two batches at once, the hate rule fires when it fires on either, relating both batches' comments in order. */
  lemma HateRuleOnJoinedBatches(userId: string, accountId: string, b1: seq<CommentRow>, b2: seq<CommentRow>)
    ensures HateSpeechAlert(userId, accountId, b1 + b2).Some? <==>
      HateSpeechAlert(userId, accountId, b1).Some? || HateSpeechAlert(userId, accountId, b2).Some?
    ensures HateSpeechAlert(userId, accountId, b1 + b2).Some? ==>
      HateSpeechAlert(userId, accountId, b1 + b2).value.relatedComments
        == PostIds(HighRiskComments(b1)) + PostIds(HighRiskComments(b2))
  {
    FilterConcat(b1, b2, IsHighRisk);
    PostIdsConcat(HighRiskComments(b1), HighRiskComments(b2));
  }

  /** A spiking batch still spikes after more negative comments arrive in it. */
  lemma SpikePersistsUnderNegatives(userId: string, accountId: string, b1: seq<CommentRow>, b2: seq<CommentRow>)
    requires SpikeAlert(userId, accountId, b1).Some?
    requires forall k :: 0 <= k < |b2| ==> b2[k].sentiment == Known(Negative)
    ensures SpikeAlert(userId, accountId, b1 + b2).Some?
  {
    FilterConcat(b1, b2, IsNegative);
    FilterAll(b2, IsNegative);
  }
}
