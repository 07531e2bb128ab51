/** What the ingestion specification guarantees: dedup, field mapping, at-most-once ingestion, checkpoint and isolation. */
module IngestionProps {
  import opened Wrappers
  import opened Types
  import Text
  import opened Classifier
  import opened Alerts
  import opened Ingestion

  // ---------------------------------------------------------------------
  // Language detection
  // ---------------------------------------------------------------------

  /** Joined texts are Thai exactly when one of the parts is. */
  lemma DetectLanguageConcat(s: string, t: string)
    ensures DetectLanguage(s + t) == Th <==> DetectLanguage(s) == Th || DetectLanguage(t) == Th
  {
    var st := s + t;
    if DetectLanguage(s) == Th {
      var k :| 0 <= k < |s| && IsThaiChar(s[k]);
      assert st[k] == s[k];
    }
    if DetectLanguage(t) == Th {
      var k :| 0 <= k < |t| && IsThaiChar(t[k]);
      assert st[|s| + k] == t[k];
    }
    if DetectLanguage(st) == Th {
      var k :| 0 <= k < |st| && IsThaiChar(st[k]);
      if k >= |s| { assert t[k - |s|] == st[k]; } else { assert s[k] == st[k]; }
    }
  }

  /** Text made only of ASCII characters is English. */
  lemma AsciiIsEnglish(s: string)
    requires forall k :: 0 <= k < |s| ==> s[k] as int < 128
    ensures DetectLanguage(s) == En
  {
  }

  // ---------------------------------------------------------------------
  // One raw comment
  // ---------------------------------------------------------------------

  /**
   * A comment whose id is stored is skipped before it is classified; one
   * whose author cannot be read, or whose call throws, is dropped; the rest
   * are kept.
   */
  lemma IngestOutcomes(store: seq<CommentRow>, accountId: string, platform: Platform, raw: RawComment,
                       k: nat, reply: nat -> ScorerReply, parse: string -> Option<JsValue>)
    ensures var s := Ingest(store, accountId, platform, raw, k, ScorerOf(reply, parse));
      && (s.Skipped? <==> IsStored(store, raw.id))
      && (s.Dropped? <==>
            !IsStored(store, raw.id)
            && (!AuthorReadable(raw, platform) || (ContentOf(raw, platform).None? && !Delivered(reply(k)))))
  {
    if !IsStored(store, raw.id) && AuthorReadable(raw, platform) {
      AnalyzeCommentOutcomes(CommentDataOf(raw, platform), reply(k), parse);
    }
  }

  /** The row built for a kept comment follows each platform's field names and carries the call's result. */
  lemma KeptRowFields(store: seq<CommentRow>, accountId: string, platform: Platform, raw: RawComment,
                      k: nat, reply: nat -> ScorerReply, parse: string -> Option<JsValue>)
    requires Ingest(store, accountId, platform, raw, k, ScorerOf(reply, parse)).Kept?
    ensures var row := Ingest(store, accountId, platform, raw, k, ScorerOf(reply, parse)).row;
      && row.socialAccountId == accountId && row.platform == platform && row.postId == raw.id
      && (platform == Facebook ==>
            raw.from.Some? && row.content == raw.message && row.author == raw.from.value.name
            && row.authorId == raw.from.value.id && row.timestamp == raw.createdTime)
      && (platform == Twitter ==>
            row.content == raw.text && row.author == raw.authorId
            && row.authorId == raw.authorId && row.timestamp == raw.createdAt)
      && Success(row.analysis) ==
           AnalyzeComment(CommentData(row.content, row.author, platform,
                                      Some(DetectLanguage(Text.JsText(row.content)))), reply(k), parse)
      && row.sentiment == row.analysis.sentiment && row.risk == row.analysis.risk
      && row.confidence == row.analysis.confidence
  {
  }

  // ---------------------------------------------------------------------
  // The collected rows
  // ---------------------------------------------------------------------

  /** Each of `rows` is what the loop body kept from one of the first `n` raw comments, an unstored one with the row's post id. */
  ghost predicate KeptFrom(store: seq<CommentRow>, accountId: string, platform: Platform,
                           raws: seq<RawComment>, score: Scorer, n: nat, rows: seq<CommentRow>)
  {
    forall j {:trigger rows[j]} :: 0 <= j < |rows| ==>
      exists m :: 0 <= m < n && m < |raws| && Ingest(store, accountId, platform, raws[m], m, score) == Kept(rows[j])
                  && raws[m].id == rows[j].postId && !IsStored(store, raws[m].id)
  }

  /** Every collected row comes from a raw comment that was not stored and was kept, in that comment's position. */
  lemma {:induction false} ProcessedProvenance(store: seq<CommentRow>, accountId: string, platform: Platform,
                                               raws: seq<RawComment>, score: Scorer, n: nat)
    requires n <= |raws|
    ensures |Processed(store, accountId, platform, raws, score, n)| <= n
    ensures KeptFrom(store, accountId, platform, raws, score, n, Processed(store, accountId, platform, raws, score, n))
    decreases n
  {
    if n > 0 {
      ProcessedProvenance(store, accountId, platform, raws, score, n - 1);
      var q := Processed(store, accountId, platform, raws, score, n - 1);
      var s := Ingest(store, accountId, platform, raws[n - 1], n - 1, score);
      var p := q + KeptRows(s);
      assert Processed(store, accountId, platform, raws, score, n) == p;
      forall j | 0 <= j < |p|
        ensures exists m :: 0 <= m < n && m < |raws| && Ingest(store, accountId, platform, raws[m], m, score) == Kept(p[j])
                            && raws[m].id == p[j].postId && !IsStored(store, raws[m].id)
      {
        if j < |q| {
          assert p[j] == q[j];
          var m :| 0 <= m < n - 1 && m < |raws| && Ingest(store, accountId, platform, raws[m], m, score) == Kept(q[j])
                   && raws[m].id == q[j].postId && !IsStored(store, raws[m].id);
          assert Ingest(store, accountId, platform, raws[m], m, score) == Kept(p[j]);
        } else {
          var m := n - 1;
          assert Ingest(store, accountId, platform, raws[m], m, score) == Kept(p[j]);
          assert raws[m].id == p[j].postId && !IsStored(store, raws[m].id);
        }
      }
    }
  }

  /** None of `rows` has a post id the dedup query finds in `store`. */
  ghost predicate Unstored(store: seq<CommentRow>, rows: seq<CommentRow>) {
    forall j {:trigger rows[j]} :: 0 <= j < |rows| ==> !IsStored(store, rows[j].postId)
  }

  /** Every post id of `rows` is the id of one of the first `n` raw comments. */
  ghost predicate IdsAmong(rows: seq<CommentRow>, raws: seq<RawComment>, n: nat) {
    forall j {:trigger rows[j]} :: 0 <= j < |rows| ==> exists m :: 0 <= m < n && m < |raws| && raws[m].id == rows[j].postId
  }

  /** The ids of the collected rows: each was not stored and is the id of one of the first `n` raw comments. */
  lemma {:induction false} ProcessedIds(store: seq<CommentRow>, accountId: string, platform: Platform,
                                        raws: seq<RawComment>, score: Scorer, n: nat)
    requires n <= |raws|
    ensures Unstored(store, Processed(store, accountId, platform, raws, score, n))
    ensures IdsAmong(Processed(store, accountId, platform, raws, score, n), raws, n)
    decreases n
  {
    if n > 0 {
      ProcessedIds(store, accountId, platform, raws, score, n - 1);
      var q := Processed(store, accountId, platform, raws, score, n - 1);
      var s := Ingest(store, accountId, platform, raws[n - 1], n - 1, score);
      var p := q + KeptRows(s);
      assert Processed(store, accountId, platform, raws, score, n) == p;
      assert s.Kept? ==> s.row.postId == raws[n - 1].id && !IsStored(store, raws[n - 1].id);
      forall j | 0 <= j < |p|
        ensures !IsStored(store, p[j].postId) && exists m :: 0 <= m < n && m < |raws| && raws[m].id == p[j].postId
      {
        if j < |q| {
          assert p[j] == q[j];
        } else {
          assert p[j] == s.row;
        }
      }
    }
  }

  /** Every kept raw comment among the first `n` has its row collected. */
  lemma {:induction false} ProcessedComplete(store: seq<CommentRow>, accountId: string, platform: Platform,
                                             raws: seq<RawComment>, score: Scorer, n: nat, m: nat)
    requires m < n <= |raws|
    requires Ingest(store, accountId, platform, raws[m], m, score).Kept?
    ensures Ingest(store, accountId, platform, raws[m], m, score).row
            in Processed(store, accountId, platform, raws, score, n)
    decreases n
  {
    if m < n - 1 {
      ProcessedComplete(store, accountId, platform, raws, score, n - 1, m);
    }
  }

  /** Nothing is collected when every raw comment is skipped. */
  lemma {:induction false} AllSkippedCollectsNothing(store: seq<CommentRow>, accountId: string, platform: Platform,
                                                     raws: seq<RawComment>, score: Scorer, n: nat)
    requires n <= |raws|
    requires forall m :: 0 <= m < n ==> IsStored(store, raws[m].id)
    ensures Processed(store, accountId, platform, raws, score, n) == []
    decreases n
  {
    if n > 0 {
      AllSkippedCollectsNothing(store, accountId, platform, raws, score, n - 1);
    }
  }

  // ---------------------------------------------------------------------
  // At-most-once ingestion
  // ---------------------------------------------------------------------

  /** Each post id occurs at most once in the comments table. */
  ghost predicate UniquePostIds(rows: seq<CommentRow>) {
    forall id :: CountPostId(rows, id) <= 1
  }

  /** The ids of a fetched page are pairwise different. */
  ghost predicate DistinctIds(raws: seq<RawComment>) {
    forall i, j :: 0 <= i < j < |raws| ==> raws[i].id != raws[j].id
  }

  lemma {:induction false} CountConcat(a: seq<CommentRow>, b: seq<CommentRow>, id: string)
    ensures CountPostId(a + b, id) == CountPostId(a, id) + CountPostId(b, id)
    decreases |b|
  {
    if b == [] {
      assert a + b == a;
    } else {
      var b' := b[..|b| - 1];
      assert (a + b)[..|a + b| - 1] == a + b';
      CountConcat(a, b', id);
    }
  }

  lemma {:induction false} CountOfMember(rows: seq<CommentRow>, row: CommentRow)
    requires row in rows
    ensures CountPostId(rows, row.postId) >= 1
    decreases |rows|
  {
    if rows[|rows| - 1] != row {
      assert row in rows[..|rows| - 1];
      CountOfMember(rows[..|rows| - 1], row);
    }
  }

  /** No two rows share a post id. */
  ghost predicate DistinctPostIds(rows: seq<CommentRow>) {
    forall i, j :: 0 <= i < j < |rows| ==> rows[i].postId != rows[j].postId
  }

  lemma {:induction false} CountAbsent(rows: seq<CommentRow>, id: string)
    requires forall j :: 0 <= j < |rows| ==> rows[j].postId != id
    ensures CountPostId(rows, id) == 0
    decreases |rows|
  {
    if rows != [] {
      CountAbsent(rows[..|rows| - 1], id);
    }
  }

  lemma {:induction false} CountDistinct(rows: seq<CommentRow>, id: string)
    requires DistinctPostIds(rows)
    ensures CountPostId(rows, id) <= 1
    decreases |rows|
  {
    if rows != [] {
      var init := rows[..|rows| - 1];
      CountDistinct(init, id);
      if rows[|rows| - 1].postId == id {
        forall j | 0 <= j < |init|
          ensures init[j].postId != id
        {
          assert init[j] == rows[j];
        }
        CountAbsent(init, id);
      }
    }
  }

  /** From a page with distinct ids, the collected rows have distinct post ids. */
  lemma {:induction false} ProcessedDistinct(store: seq<CommentRow>, accountId: string, platform: Platform,
                                             raws: seq<RawComment>, score: Scorer, n: nat)
    requires n <= |raws| && DistinctIds(raws)
    ensures DistinctPostIds(Processed(store, accountId, platform, raws, score, n))
    decreases n
  {
    if n > 0 {
      ProcessedDistinct(store, accountId, platform, raws, score, n - 1);
      var q := Processed(store, accountId, platform, raws, score, n - 1);
      var s := Ingest(store, accountId, platform, raws[n - 1], n - 1, score);
      if s.Kept? {
        ProcessedIds(store, accountId, platform, raws, score, n - 1);
        var p := q + [s.row];
        assert Processed(store, accountId, platform, raws, score, n) == p;
        assert s.row.postId == raws[n - 1].id;
        forall i, j | 0 <= i < j < |p|
          ensures p[i].postId != p[j].postId
        {
          if j < |q| {
            assert p[i] == q[i] && p[j] == q[j];
          } else {
            var m :| 0 <= m < n - 1 && raws[m].id == q[i].postId;
            assert raws[m].id != raws[n - 1].id;
          }
        }
      } else {
        assert Processed(store, accountId, platform, raws, score, n) == q + [];
      }
    }
  }

  /**
   * Ingesting a page with distinct ids keeps every post id unique in the table.
   * This rests on the dedup query never failing: the model has no such error.
   */
  lemma UniquenessPreserved(store: seq<CommentRow>, accountId: string, platform: Platform,
                            raws: seq<RawComment>, score: Scorer)
    requires UniquePostIds(store) && DistinctIds(raws)
    ensures UniquePostIds(store + Processed(store, accountId, platform, raws, score, |raws|))
  {
    var p := Processed(store, accountId, platform, raws, score, |raws|);
    ProcessedDistinct(store, accountId, platform, raws, score, |raws|);
    ProcessedIds(store, accountId, platform, raws, score, |raws|);
    forall id
      ensures CountPostId(store + p, id) <= 1
    {
      CountConcat(store, p, id);
      CountDistinct(p, id);
      if exists j :: 0 <= j < |p| && p[j].postId == id {
        var j :| 0 <= j < |p| && p[j].postId == id;
        assert !IsStored(store, p[j].postId);
        assert CountPostId(store, id) == 0;
      } else {
        CountAbsent(p, id);
      }
    }
  }

  /**
   * Fetching the same page again after an ingest that dropped nothing collects
   * nothing: every comment is now stored exactly once.
   */
  lemma ResyncCollectsNothing(store: seq<CommentRow>, accountId: string, platform: Platform,
                              raws: seq<RawComment>, score1: Scorer, score2: Scorer)
    requires UniquePostIds(store) && DistinctIds(raws)
    requires forall m :: 0 <= m < |raws| ==> !Ingest(store, accountId, platform, raws[m], m, score1).Dropped?
    ensures var p := Processed(store, accountId, platform, raws, score1, |raws|);
      Processed(store + p, accountId, platform, raws, score2, |raws|) == []
  {
    var p := Processed(store, accountId, platform, raws, score1, |raws|);
    forall m | 0 <= m < |raws|
      ensures IsStored(store + p, raws[m].id)
    {
      StoredAfterIngest(store, accountId, platform, raws, score1, m);
    }
    AllSkippedCollectsNothing(store + p, accountId, platform, raws, score2, |raws|);
  }

  /** After an ingest of a page with distinct ids, a comment that was not dropped is stored exactly once. */
  lemma StoredAfterIngest(store: seq<CommentRow>, accountId: string, platform: Platform,
                          raws: seq<RawComment>, score: Scorer, m: nat)
    requires UniquePostIds(store) && DistinctIds(raws) && m < |raws|
    requires !Ingest(store, accountId, platform, raws[m], m, score).Dropped?
    ensures IsStored(store + Processed(store, accountId, platform, raws, score, |raws|), raws[m].id)
  {
    var p := Processed(store, accountId, platform, raws, score, |raws|);
    CountConcat(store, p, raws[m].id);
    if Ingest(store, accountId, platform, raws[m], m, score).Kept? {
      KeptCountedOnce(store, accountId, platform, raws, score, m);
    } else {
      SkippedNotCollected(store, accountId, platform, raws, score, raws[m].id);
    }
  }

  /** A kept comment of a page with distinct ids is new, and it gets exactly one collected row. */
  lemma KeptCountedOnce(store: seq<CommentRow>, accountId: string, platform: Platform,
                        raws: seq<RawComment>, score: Scorer, m: nat)
    requires UniquePostIds(store) && DistinctIds(raws) && m < |raws|
    requires Ingest(store, accountId, platform, raws[m], m, score).Kept?
    ensures CountPostId(store, raws[m].id) == 0
    ensures CountPostId(Processed(store, accountId, platform, raws, score, |raws|), raws[m].id) == 1
  {
    var p := Processed(store, accountId, platform, raws, score, |raws|);
    var s := Ingest(store, accountId, platform, raws[m], m, score);
    assert !IsStored(store, raws[m].id) && CountPostId(store, raws[m].id) <= 1;
    ProcessedDistinct(store, accountId, platform, raws, score, |raws|);
    ProcessedComplete(store, accountId, platform, raws, score, |raws|, m);
    CountOfMember(p, s.row);
    CountDistinct(p, raws[m].id);
  }

  /** An id already stored once is not collected again. */
  lemma SkippedNotCollected(store: seq<CommentRow>, accountId: string, platform: Platform,
                            raws: seq<RawComment>, score: Scorer, id: string)
    requires IsStored(store, id)
    ensures CountPostId(Processed(store, accountId, platform, raws, score, |raws|), id) == 0
  {
    var p := Processed(store, accountId, platform, raws, score, |raws|);
    ProcessedIds(store, accountId, platform, raws, score, |raws|);
    forall j | 0 <= j < |p|
      ensures p[j].postId != id
    {
      assert !IsStored(store, p[j].postId);
    }
    CountAbsent(p, id);
  }

  /**
   * The rows gathered from an arbitrary sequence of loop steps `f(0), f(1), …`;
   * the counting facts below are proved here, where no step is unfolded.
   */
  function Gather(f: nat -> Step, n: nat): seq<CommentRow>
    decreases n
  {
    if n == 0 then [] else Gather(f, n - 1) + KeptRows(f(n - 1))
  }

  /** The steps the ingest loop takes on a page, as a function of the position. */
  function StepsOf(store: seq<CommentRow>, accountId: string, platform: Platform,
                   raws: seq<RawComment>, score: Scorer): nat -> Step
  {
    (k: nat) => if k < |raws| then Ingest(store, accountId, platform, raws[k], k, score) else Dropped
  }

  lemma {:induction false} ProcessedGathers(store: seq<CommentRow>, accountId: string, platform: Platform,
                                            raws: seq<RawComment>, score: Scorer, n: nat)
    requires n <= |raws|
    ensures Processed(store, accountId, platform, raws, score, n)
            == Gather(StepsOf(store, accountId, platform, raws, score), n)
    decreases n
  {
    if n > 0 {
      var f := StepsOf(store, accountId, platform, raws, score);
      var s := Ingest(store, accountId, platform, raws[n - 1], n - 1, score);
      ProcessedGathers(store, accountId, platform, raws, score, n - 1);
      assert f(n - 1) == s;
      assert Gather(f, n) == Gather(f, n - 1) + KeptRows(s);
      assert Processed(store, accountId, platform, raws, score, n)
             == Processed(store, accountId, platform, raws, score, n - 1) + KeptRows(s);
    }
  }

  /** The number of steps among the first `n` that keep a row with `id`. */
  function KeptCount(f: nat -> Step, n: nat, id: string): nat
    decreases n
  {
    if n == 0 then 0 else KeptCount(f, n - 1, id) + (if f(n - 1).Kept? && f(n - 1).row.postId == id then 1 else 0)
  }

  /** The gathered rows hold `id` once for every step that kept a row with it. */
  lemma {:induction false} GatherCount(f: nat -> Step, n: nat, id: string)
    ensures CountPostId(Gather(f, n), id) == KeptCount(f, n, id)
    decreases n
  {
    if n > 0 {
      var g, s := Gather(f, n - 1), f(n - 1);
      GatherCount(f, n - 1, id);
      assert Gather(f, n) == g + KeptRows(s);
      CountConcat(g, KeptRows(s), id);
      CountKeptRows(s, id);
    }
  }

  /** A step contributes one row with `id` exactly when it keeps a row with that id. */
  lemma CountKeptRows(s: Step, id: string)
    ensures CountPostId(KeptRows(s), id) == if s.Kept? && s.row.postId == id then 1 else 0
  {
    if s.Kept? {
      assert [s.row][..0] == [];
    }
  }

  lemma {:induction false} KeptCountMonotone(f: nat -> Step, m: nat, n: nat, id: string)
    requires m <= n
    ensures KeptCount(f, m, id) <= KeptCount(f, n, id)
    decreases n
  {
    if m < n {
      KeptCountMonotone(f, m, n - 1, id);
    }
  }

  /** Two steps that keep rows with the same id give that id at least two gathered rows. */
  lemma GatherKeptTwice(f: nat -> Step, n: nat, i: nat, j: nat, id: string)
    requires i < j < n
    requires f(i).Kept? && f(i).row.postId == id && f(j).Kept? && f(j).row.postId == id
    ensures CountPostId(Gather(f, n), id) >= 2
  {
    assert KeptCount(f, i + 1, id) == KeptCount(f, i, id) + 1;
    assert KeptCount(f, j + 1, id) == KeptCount(f, j, id) + 1;
    KeptCountMonotone(f, i + 1, j, id);
    KeptCountMonotone(f, j + 1, n, id);
    GatherCount(f, n, id);
  }

  /**
   * The dedup query cannot see duplicates inside one page: whenever a page
   * holds an unstored id twice and both comments are kept, the id gets two
   * rows, and afterwards the `single()` query finds no single row, so the id
   * is not skipped on any later pass.
   */
  lemma DuplicateInPageIngestedTwice(store: seq<CommentRow>, accountId: string, platform: Platform,
                                     raws: seq<RawComment>, score: Scorer, i: nat, j: nat)
    requires i < j < |raws| && raws[i].id == raws[j].id && !IsStored(store, raws[i].id)
    requires !Ingest(store, accountId, platform, raws[i], i, score).Dropped?
    requires !Ingest(store, accountId, platform, raws[j], j, score).Dropped?
    ensures var p := Processed(store, accountId, platform, raws, score, |raws|);
      && CountPostId(p, raws[i].id) >= 2
      && !IsStored(store + p, raws[i].id)
      && forall k: nat :: !Ingest(store + p, accountId, platform, raws[i], k, score).Skipped?
  {
    var p := Processed(store, accountId, platform, raws, score, |raws|);
    var f := StepsOf(store, accountId, platform, raws, score);
    assert f(i) == Ingest(store, accountId, platform, raws[i], i, score);
    assert f(j) == Ingest(store, accountId, platform, raws[j], j, score);
    ProcessedGathers(store, accountId, platform, raws, score, |raws|);
    GatherKeptTwice(f, |raws|, i, j, raws[i].id);
    CountConcat(store, p, raws[i].id);
  }

  /**
   * For example, with an empty table and a scorer that never answers, the
   * Twitter page `[raw, raw]` inserts two rows with the same post id.
   */
  lemma DuplicateInPageExample(accountId: string, parse: string -> Option<JsValue>)
    ensures var raw := RawComment("p1", None, None, None, Some("hi"), Some("u1"), None);
      var score := ScorerOf((k: nat) => TransportError, parse);
      var p := Processed([], accountId, Twitter, [raw, raw], score, 2);
      && |p| == 2 && CountPostId(p, "p1") == 2
      && !Ingest(p, accountId, Twitter, raw, 2, score).Skipped?
  {
    var raw := RawComment("p1", None, None, None, Some("hi"), Some("u1"), None);
    var score := ScorerOf((k: nat) => TransportError, parse);
    var data := CommentDataOf(raw, Twitter);
    AnalyzeCommentOutcomes(data, TransportError, parse);
    assert score(0, data).Success? && score(1, data).Success?;
    KeptTwiceOnEmptyTable(accountId, Twitter, raw, score);
  }

  /** A comment kept at both positions of the page `[raw, raw]` over an empty table gets two rows. */
  lemma KeptTwiceOnEmptyTable(accountId: string, platform: Platform, raw: RawComment, score: Scorer)
    requires Ingest([], accountId, platform, raw, 0, score).Kept?
    requires Ingest([], accountId, platform, raw, 1, score).Kept?
    ensures var p := Processed([], accountId, platform, [raw, raw], score, 2);
      && |p| == 2 && CountPostId(p, raw.id) == 2
      && !Ingest(p, accountId, platform, raw, 2, score).Skipped?
  {
    var s0 := Ingest([], accountId, platform, raw, 0, score);
    var s1 := Ingest([], accountId, platform, raw, 1, score);
    assert s0.row.postId == s1.row.postId == raw.id;
    ProcessedPair([], accountId, platform, [raw, raw], score);
    CountConcat(KeptRows(s0), KeptRows(s1), raw.id);
    CountKeptRows(s0, raw.id);
    CountKeptRows(s1, raw.id);
  }

  /** On a two-comment page the collected rows are those of the two steps, in order. */
  lemma ProcessedPair(store: seq<CommentRow>, accountId: string, platform: Platform,
                      raws: seq<RawComment>, score: Scorer)
    requires |raws| == 2
    ensures Processed(store, accountId, platform, raws, score, 2)
            == KeptRows(Ingest(store, accountId, platform, raws[0], 0, score))
               + KeptRows(Ingest(store, accountId, platform, raws[1], 1, score))
  {
    assert Processed(store, accountId, platform, raws, score, 0) == [];
    assert Processed(store, accountId, platform, raws, score, 1)
           == KeptRows(Ingest(store, accountId, platform, raws[0], 0, score));
  }

  // ---------------------------------------------------------------------
  // One account sync
  // ---------------------------------------------------------------------

  /**
   * A sync that throws leaves every table as it was, the checkpoint included.
   * It throws "account not found" exactly when the account query errs or
   * finds no single row.
   */
  lemma SyncFailureChangesNothing(db: Db, accountId: string, platform: Platform, env: SyncEnv)
    ensures var (db', r) := SyncAccount(db, accountId, platform, env);
      r.Failure? ==> db' == db
    ensures var (db', r) := SyncAccount(db, accountId, platform, env);
      r == Failure(AccountNotFound) <==> env.lookupFailed || LookupAccount(db.accounts, accountId).None?
  {
  }

  /**
   * When a sync fails: exactly when the account query errs or finds no
   * single row, or when there are new rows and their insert fails. An empty
   * page with the account found always succeeds, with a count of zero.
   */
  lemma SyncOutcome(db: Db, accountId: string, platform: Platform, env: SyncEnv)
    ensures var (db', r) := SyncAccount(db, accountId, platform, env);
      var raws := FetchComments(env.fetch);
      var p := Processed(db.comments, accountId, platform, raws, env.score, |raws|);
      var found := !env.lookupFailed && LookupAccount(db.accounts, accountId).Some?;
      && (r.Failure? <==> !found || (p != [] && env.insertError.Some?))
      && (r.Failure? && found ==> r == Failure(InsertFailed(env.insertError.value)))
      && (found && p == [] ==> r == Success(0))
  {
  }

  /**
   * Whether the alert inserts went through changes neither the result nor
   * the comments nor the checkpoint: alert failures are only logged.
   */
  lemma AlertStoresIgnored(db: Db, accountId: string, platform: Platform, env: SyncEnv, env': SyncEnv)
    requires env' == env.(hateAlertStored := env'.hateAlertStored, spikeAlertStored := env'.spikeAlertStored)
    ensures var (db1, r1) := SyncAccount(db, accountId, platform, env);
      var (db2, r2) := SyncAccount(db, accountId, platform, env');
      r1 == r2 && db1.comments == db2.comments && db1.accounts == db2.accounts
  {
  }

  /**
   * A successful sync appends exactly the collected rows, adds at most two
   * alerts and only when something was inserted, and returns the row count.
   */
  lemma SyncSuccessEffects(db: Db, accountId: string, platform: Platform, env: SyncEnv)
    ensures var (db', r) := SyncAccount(db, accountId, platform, env);
      var raws := FetchComments(env.fetch);
      var p := Processed(db.comments, accountId, platform, raws, env.score, |raws|);
      r.Success? ==>
        && r.value == |p|
        && db'.comments == db.comments + p
        && (p != [] ==> env.insertError.None?)
        && |db.alerts| <= |db'.alerts| <= |db.alerts| + 2
        && db'.alerts[..|db.alerts|] == db.alerts
        && (p == [] ==> db'.alerts == db.alerts)
  {
    var (db', r) := SyncAccount(db, accountId, platform, env);
    var raws := FetchComments(env.fetch);
    var p := Processed(db.comments, accountId, platform, raws, env.score, |raws|);
    if r.Success? && p != [] {
      var a := LookupAccount(db.accounts, accountId).value;
      AtMostOneOfEach(a.userId, accountId, p, env.hateAlertStored, env.spikeAlertStored);
    }
  }

  /**
   * The checkpoint: set to `now` on every row of the account after a
   * successful sync whose update went through, even when nothing was new;
   * other accounts, and every account after a failed sync, keep theirs.
   */
  lemma CheckpointRule(db: Db, accountId: string, platform: Platform, env: SyncEnv,
                       k: nat)
    requires k < |db.accounts|
    ensures var (db', r) := SyncAccount(db, accountId, platform, env);
      && |db'.accounts| == |db.accounts|
      && db'.accounts[k].lastSync ==
           (if r.Success? && env.checkpointStored && db.accounts[k].id == accountId then env.now
            else db.accounts[k].lastSync)
      && db'.accounts[k] == db.accounts[k].(lastSync := db'.accounts[k].lastSync)
  {
  }

  /** With a clock that does not run backwards, a sync never moves a checkpoint back. */
  lemma CheckpointMonotone(db: Db, accountId: string, platform: Platform, env: SyncEnv,
                           k: nat)
    requires k < |db.accounts| && env.now >= db.accounts[k].lastSync
    ensures var (db', _) := SyncAccount(db, accountId, platform, env);
      db'.accounts[k].lastSync >= db.accounts[k].lastSync
  {
    CheckpointRule(db, accountId, platform, env, k);
  }

  /**
   * Syncing an account twice with the same page, when the first run dropped
   * nothing, inserts nothing the second time and adds no alert; the second
   * run returns 0, or "account not found" when its account query errs.
   * Like UniquenessPreserved, this assumes the dedup query never fails.
   */
  lemma SecondSyncInsertsNothing(db: Db, accountId: string, platform: Platform, env1: SyncEnv, env2: SyncEnv)
    requires UniquePostIds(db.comments)
    requires FetchComments(env2.fetch) == FetchComments(env1.fetch) && DistinctIds(FetchComments(env1.fetch))
    requires var raws := FetchComments(env1.fetch);
      forall m :: 0 <= m < |raws| ==> !Ingest(db.comments, accountId, platform, raws[m], m, env1.score).Dropped?
    requires SyncAccount(db, accountId, platform, env1).1.Success?
    ensures var (db1, _) := SyncAccount(db, accountId, platform, env1);
      var (db2, r2) := SyncAccount(db1, accountId, platform, env2);
      && UniquePostIds(db1.comments)
      && r2 == (if env2.lookupFailed then Failure(AccountNotFound) else Success(0))
      && db2.comments == db1.comments && db2.alerts == db1.alerts
  {
    var raws := FetchComments(env1.fetch);
    var (db1, _) := SyncAccount(db, accountId, platform, env1);
    UniquenessPreserved(db.comments, accountId, platform, raws, env1.score);
    ResyncCollectsNothing(db.comments, accountId, platform, raws, env1.score, env2.score);
    assert CountAccountId(db1.accounts, accountId) == CountAccountId(db.accounts, accountId) by {
      SetLastSyncKeepsIds(db.accounts, accountId, env1.now);
    }
  }

  lemma {:induction false} SetLastSyncKeepsIds(accounts: seq<Account>, id: string, now: int)
    ensures forall other :: CountAccountId(SetLastSync(accounts, id, now), other) == CountAccountId(accounts, other)
    ensures ActiveAccounts(SetLastSync(accounts, id, now)) == []  <==> ActiveAccounts(accounts) == []
    decreases |accounts|
  {
    var r := SetLastSync(accounts, id, now);
    if accounts != [] {
      SetLastSyncKeepsIds(accounts[1..], id, now);
      assert r[1..] == SetLastSync(accounts[1..], id, now);
    }
    FilterEmpty(accounts, IsActive);
    FilterEmpty(r, IsActive);
  }

  // ---------------------------------------------------------------------
  // The fleet
  // ---------------------------------------------------------------------

  /** A failed account query is re-thrown and nothing changes. */
  lemma FleetQueryFailure(db: Db, e: string, env: string -> SyncEnv)
    ensures SyncAll(db, Some(e), env) == (db, Failure(e))
  {
  }

  /**
   * An account's outcome: its id and platform; `success: true` with the
   * sync's comment count, or `success: false` with the thrown message.
   */
  lemma OutcomeNames(a: Account, r: Result<nat, SyncError>)
    ensures OutcomeOf(a, r).accountId == a.id && OutcomeOf(a, r).platform == a.platform
    ensures OutcomeOf(a, r).SyncFailed? <==> r.Failure?
    ensures r.Success? ==> OutcomeOf(a, r).commentCount == r.value
    ensures r.Failure? ==> OutcomeOf(a, r).error == ErrorMessage(r.error)
    ensures r == Failure(AccountNotFound) ==> OutcomeOf(a, r).error == "Social account not found"
    ensures forall m :: r == Failure(InsertFailed(m)) ==> OutcomeOf(a, r).error == m
  {
  }

  /**
   * Outcome `k` is account `k`'s own sync run on the tables the earlier
   * accounts left; later accounts do not rewrite it.
   */
  lemma {:induction false} SyncPrefixOutcome(db: Db, active: seq<Account>, env: string -> SyncEnv,
                                             n: nat, k: nat)
    requires k < n <= |active|
    ensures var before := SyncPrefix(db, active, env, k).0;
      && |SyncPrefix(db, active, env, n).1| == n
      && SyncPrefix(db, active, env, n).1[k]
         == OutcomeOf(active[k], SyncAccount(before, active[k].id, active[k].platform, env(active[k].id)).1)
    decreases n
  {
    var prev := SyncPrefix(db, active, env, n - 1);
    var a := active[n - 1];
    var out := OutcomeOf(a, SyncAccount(prev.0, a.id, a.platform, env(a.id)).1);
    var outs := SyncPrefix(db, active, env, n).1;
    assert outs == prev.1 + [out];
    if k < n - 1 {
      SyncPrefixOutcome(db, active, env, n - 1, k);
      assert outs[k] == prev.1[k];
    } else {
      assert SyncPrefix(db, active, env, k) == prev && active[k] == a;
      assert outs[k] == out;
    }
  }

  /** `b` is `a` with zero or more entries appended. */
  ghost predicate Extends<T>(a: seq<T>, b: seq<T>) {
    |a| <= |b| && b[..|a|] == a
  }

  lemma ExtendsTrans<T>(a: seq<T>, b: seq<T>, c: seq<T>)
    requires Extends(a, b) && Extends(b, c)
    ensures Extends(a, c)
  {
    assert c[..|a|] == c[..|b|][..|a|];
  }

  /** One account sync only appends comment rows and alerts. */
  lemma SyncAppendOnly(db: Db, accountId: string, platform: Platform, env: SyncEnv)
    ensures var d := SyncAccount(db, accountId, platform, env).0;
      Extends(db.comments, d.comments) && Extends(db.alerts, d.alerts)
  {
    SyncSuccessEffects(db, accountId, platform, env);
  }

  /** Syncing the accounts in turn only appends comment rows and alerts. */
  lemma {:induction false} SyncPrefixAppendOnly(db: Db, active: seq<Account>, env: string -> SyncEnv,
                                                n: nat)
    requires n <= |active|
    ensures var d := SyncPrefix(db, active, env, n).0;
      Extends(db.comments, d.comments) && Extends(db.alerts, d.alerts)
    decreases n
  {
    if n > 0 {
      SyncPrefixAppendOnly(db, active, env, n - 1);
      var d0 := SyncPrefix(db, active, env, n - 1).0;
      var a := active[n - 1];
      SyncAppendOnly(d0, a.id, a.platform, env(a.id));
      var d := SyncPrefix(db, active, env, n).0;
      assert d == SyncAccount(d0, a.id, a.platform, env(a.id)).0;
      ExtendsTrans(db.comments, d0.comments, d.comments);
      ExtendsTrans(db.alerts, d0.alerts, d.alerts);
    }
  }

  /**
   * Isolation: an account whose sync fails is reported as failed and leaves
   * the tables exactly as the earlier accounts left them.
   */
  lemma FleetIsolation(db: Db, active: seq<Account>, env: string -> SyncEnv,
                       k: nat)
    requires k < |active|
    ensures var before := SyncPrefix(db, active, env, k).0;
      var (after, r) := SyncAccount(before, active[k].id, active[k].platform, env(active[k].id));
      && |SyncPrefix(db, active, env, |active|).1| == |active|
      && (SyncPrefix(db, active, env, |active|).1[k].SyncFailed? <==> r.Failure?)
      && (r.Failure? ==> SyncPrefix(db, active, env, k + 1).0 == before)
  {
    SyncPrefixOutcome(db, active, env, |active|, k);
    var before := SyncPrefix(db, active, env, k).0;
    SyncFailureChangesNothing(before, active[k].id, active[k].platform, env(active[k].id));
  }

  /**
   * `syncAllActiveAccounts` returns one outcome per active account in table
   * order and only appends rows and alerts.
   */
  lemma FleetOutcomes(db: Db, env: string -> SyncEnv)
    ensures var active := ActiveAccounts(db.accounts);
      var (d, r) := SyncAll(db, None, env);
      && r.Success?
      && |r.value| == |active|
      && (forall k :: 0 <= k < |active| ==>
            r.value[k].accountId == active[k].id && r.value[k].platform == active[k].platform
            && active[k].isActive)
      && Extends(db.comments, d.comments) && Extends(db.alerts, d.alerts)
  {
    var active := ActiveAccounts(db.accounts);
    SyncPrefixAppendOnly(db, active, env, |active|);
  }
}
