/**
 * Engagement scoring (app.service.ts): the per-tweet score that feeds the
 * leaderboard, the user's impressions total, and the per-user metadata
 * breakdown. The two rules differ on purpose: the score counts a tweet only
 * when it is referenced, the metadata counts every window tweet.
 */
module Scoring {
  import opened Snapshot

  /** The five metrics added together. */
  function Engagement(t: Tweet): nat {
    t.like + t.retweet + t.reply + t.impression + t.quote
  }

  /** A tweet's contribution to its author's impressions. */
  function Score(t: Tweet): nat {
    if t.referenced then Engagement(t) else 0
  }

  /** A referenced tweet scores all of its engagement, an unreferenced one nothing. */
  lemma ScoreRule(t: Tweet)
    ensures t.referenced ==> Score(t) == Engagement(t)
    ensures !t.referenced ==> Score(t) == 0
  {
  }

  /** A user's impressions: the scores of their tweets added up. */
  function Impressions(ts: seq<Tweet>): nat {
    if ts == [] then 0 else Impressions(ts[..|ts| - 1]) + Score(ts[|ts| - 1])
  }

  /** Reference definitions: the referenced tweets, and engagement summed over tweets. */
  function Referenced(ts: seq<Tweet>): (r: seq<Tweet>)
    ensures forall t :: t in r <==> t in ts && t.referenced
  {
    if ts == [] then []
    else
      var last := ts[|ts| - 1];
      Referenced(ts[..|ts| - 1]) + (if last.referenced then [last] else [])
  }

  function TotalEngagement(ts: seq<Tweet>): nat {
    if ts == [] then 0 else TotalEngagement(ts[..|ts| - 1]) + Engagement(ts[|ts| - 1])
  }

  lemma {:induction false} TotalEngagementAppend(a: seq<Tweet>, b: seq<Tweet>)
    ensures TotalEngagement(a + b) == TotalEngagement(a) + TotalEngagement(b)
    decreases |b|
  {
    if b == [] {
      assert a + b == a;
    } else {
      assert (a + b)[..|a + b| - 1] == a + b[..|b| - 1];
      TotalEngagementAppend(a, b[..|b| - 1]);
    }
  }

  /** Impressions are exactly the engagement of the referenced tweets. */
  lemma {:induction false} ImpressionsAreReferencedEngagement(ts: seq<Tweet>)
    ensures Impressions(ts) == TotalEngagement(Referenced(ts))
  {
    if ts != [] {
      var init, last := ts[..|ts| - 1], ts[|ts| - 1];
      ImpressionsAreReferencedEngagement(init);
      var tail := if last.referenced then [last] else [];
      TotalEngagementAppend(Referenced(init), tail);
      assert TotalEngagement(tail) == Score(last) by {
        if last.referenced {
          assert tail[..0] == [];
        }
      }
    }
  }

  /** A user with no referenced window tweet has zero impressions, whatever the metrics. */
  lemma {:induction false} UnreferencedScoreNothing(ts: seq<Tweet>)
    requires forall t :: t in ts ==> !t.referenced
    ensures Impressions(ts) == 0
  {
    if ts != [] {
      assert forall t :: t in ts[..|ts| - 1] ==> t in ts;
      UnreferencedScoreNothing(ts[..|ts| - 1]);
    }
  }

  /** The user's metric breakdown as the service returns it. */
  datatype Metadata = Metadata(views: nat, likes: nat, quotes: nat, replies: nat, retweets: nat)

  function Sum(m: Metadata): nat {
    m.views + m.likes + m.quotes + m.replies + m.retweets
  }

  datatype Metric = Like | Retweet | Reply | Impression | Quote

  function MetricOf(t: Tweet, k: Metric): nat {
    match k
    case Like => t.like
    case Retweet => t.retweet
    case Reply => t.reply
    case Impression => t.impression
    case Quote => t.quote
  }

  /** One metric summed over every tweet, referenced or not. */
  function Total(ts: seq<Tweet>, k: Metric): nat {
    if ts == [] then 0 else Total(ts[..|ts| - 1], k) + MetricOf(ts[|ts| - 1], k)
  }

  /** Each field of the breakdown totals its own metric over all the tweets. */
  function MetadataOf(ts: seq<Tweet>): Metadata {
    Metadata(Total(ts, Impression), Total(ts, Like), Total(ts, Quote), Total(ts, Reply), Total(ts, Retweet))
  }

  /** The five fields together are the engagement of every tweet, scored or not. */
  lemma {:induction false} MetadataIsTotalEngagement(ts: seq<Tweet>)
    ensures Sum(MetadataOf(ts)) == TotalEngagement(ts)
  {
    if ts != [] {
      MetadataIsTotalEngagement(ts[..|ts| - 1]);
    }
  }

  /** The breakdown never falls short of the impressions: it also counts unreferenced tweets. */
  lemma {:induction false} MetadataCoversImpressions(ts: seq<Tweet>)
    ensures Impressions(ts) <= Sum(MetadataOf(ts))
    ensures (forall t :: t in ts ==> t.referenced) ==> Impressions(ts) == Sum(MetadataOf(ts))
  {
    if ts != [] {
      var init := ts[..|ts| - 1];
      assert forall t :: t in init ==> t in ts;
      MetadataCoversImpressions(init);
      MetadataIsTotalEngagement(init);
      MetadataIsTotalEngagement(ts);
    }
  }

  /** The score loop (app.service.ts:52-56): `impressions += ...` for each referenced tweet. */
  method UserImpressions(tweets: seq<Tweet>) returns (impressions: nat)
    ensures impressions == Impressions(tweets)
  {
    impressions := 0;
    for i := 0 to |tweets|
      invariant impressions == Impressions(tweets[..i])
    {
      var tweet := tweets[i];
      assert tweets[..i + 1][..i] == tweets[..i];
      if tweet.referenced {
        impressions := impressions + tweet.like + tweet.retweet + tweet.reply + tweet.impression + tweet.quote;
      }
    }
    assert tweets[..|tweets|] == tweets;
  }

  /** The metadata loop (app.service.ts:142-162): five accumulators, no `referenced` check. */
  method CollectMetadata(tweets: seq<Tweet>) returns (metadata: Metadata)
    ensures metadata == MetadataOf(tweets)
  {
    metadata := Metadata(0, 0, 0, 0, 0);
    for i := 0 to |tweets|
      invariant metadata == MetadataOf(tweets[..i])
    {
      var tweet := tweets[i];
      assert tweets[..i + 1][..i] == tweets[..i];
      metadata := metadata.(likes := metadata.likes + tweet.like);
      metadata := metadata.(quotes := metadata.quotes + tweet.quote);
      metadata := metadata.(replies := metadata.replies + tweet.reply);
      metadata := metadata.(views := metadata.views + tweet.impression);
      metadata := metadata.(retweets := metadata.retweets + tweet.retweet);
    }
    assert tweets[..|tweets|] == tweets;
  }
}
