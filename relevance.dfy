/** The relevance score that ranks the videos of one search: five independent
    terms, title match (at most 40), views (at most 20), engagement (at most 20),
    duration band (at most 10) and recency (at most 10). Python's floats are
    modelled as exact reals. */
module Relevance {
  import opened Text
  import opened Wrappers
  import Duration

  predicate AllFound(words: seq<string>, title: string) {
    forall i :: 0 <= i < |words| ==> Contains(title, words[i])
  }

  predicate NoneFound(words: seq<string>, title: string) {
    forall i :: 0 <= i < |words| ==> !Contains(title, words[i])
  }

  /** How many of the query words occur in the title. */
  function CountMatches(words: seq<string>, title: string): (n: nat)
    ensures n <= |words|
    ensures n == |words| <==> AllFound(words, title)
    ensures n == 0 <==> NoneFound(words, title)
  {
    if words == [] then 0
    else (if Contains(title, words[0]) then 1 else 0) + CountMatches(words[1..], title)
  }

  /** Title term: the share of the lower-cased topic's words found in the lower-cased
      title, times 40. `None` stands for the ZeroDivisionError raised when the topic
      has no words at all. */
  function TitleTerm(topic: string, title: string): (r: Option<real>)
    ensures r.None? <==> Words(Lower(topic)) == []
    ensures r.Some? ==> 0.0 <= r.value <= 40.0
    ensures r.Some? ==> (r.value == 40.0 <==> AllFound(Words(Lower(topic)), Lower(title)))
    ensures r.Some? ==> (r.value == 0.0 <==> NoneFound(Words(Lower(topic)), Lower(title)))
  {
    var words := Words(Lower(topic));
    if words == [] then None
    else
      Some(Weighted(CountMatches(words, Lower(title)), |words|))
  }

  /** `(m / n) * 40` for m of n words matched. */
  function Weighted(m: nat, n: nat): (x: real)
    requires m <= n && n > 0
    ensures 0.0 <= x <= 40.0 && (x == 40.0 <==> m == n) && (x == 0.0 <==> m == 0)
  {
    ShareBounds(m, n);
    (m as real / n as real) * 40.0
  }

  lemma ShareBounds(m: nat, n: nat)
    requires m <= n && n > 0
    ensures var x := (m as real / n as real) * 40.0;
      0.0 <= x <= 40.0 && (x == 40.0 <==> m == n) && (x == 0.0 <==> m == 0)
  {
    var q := m as real / n as real;
    assert q * n as real == m as real;
    assert m as real <= n as real;
    assert q <= 1.0 by {
      assert (1.0 - q) * n as real == n as real - m as real;
    }
    assert q == 1.0 <==> m == n;
    assert q == 0.0 <==> m == 0;
  }

  function Min(a: real, b: real): real {
    if a <= b then a else b
  }

  /** View term: nothing up to 10000 views, then views/50000 capped at 20. */
  function ViewTerm(views: nat): (r: real)
    ensures 0.0 <= r <= 20.0
    ensures views <= 10000 ==> r == 0.0
    ensures 10000 < views <= 1000000 ==> r == views as real / 50000.0
    ensures views >= 1000000 ==> r == 20.0
  {
    if views > 10000 then Min(20.0, views as real / 50000.0) else 0.0
  }

  /** Engagement term: (likes + 2 comments) per view times a million, capped at 20;
      nothing when the video has no views. */
  function EngagementTerm(views: nat, likes: nat, comments: nat): (r: real)
    ensures 0.0 <= r <= 20.0
    ensures views == 0 ==> r == 0.0
    ensures views > 0 && likes + comments > 0 ==> r > 0.0
  {
    if views > 0 then
      var rate := (likes + comments * 2) as real / views as real;
      Min(20.0, rate * 1000000.0)
    else 0.0
  }

  /** Duration term: 10 for 10 to 30 minutes, 7 for 5 to 10 minutes, 5 above 30 minutes. */
  function DurationTerm(seconds: nat): (r: real)
    ensures r == 0.0 || r == 5.0 || r == 7.0 || r == 10.0
    ensures r == 0.0 <==> seconds < 300
    ensures r == 10.0 <==> 600 <= seconds <= 1800
    ensures r == 7.0 <==> 300 <= seconds < 600
    ensures r == 5.0 <==> seconds > 1800
  {
    if 600 <= seconds <= 1800 then 10.0
    else if 300 <= seconds < 600 then 7.0
    else if seconds > 1800 then 5.0
    else 0.0
  }

  /** Recency term: 10 for a video at most a week old, 5 for at most 30 days. */
  function RecencyTerm(daysOld: int): (r: real)
    ensures r == 0.0 || r == 5.0 || r == 10.0
    ensures r == 10.0 <==> daysOld <= 7
    ensures r == 0.0 <==> daysOld > 30
  {
    if daysOld <= 7 then 10.0 else if daysOld <= 30 then 5.0 else 0.0
  }

  /** `_calculate_relevance_score` for a video with the given title, counts and
      duration code, `daysOld` days after publication. */
  function Score(topic: string, title: string, views: nat, likes: nat, comments: nat,
                 durationCode: string, daysOld: int): (r: Option<real>)
    ensures r.None? <==> Words(Lower(topic)) == []
    ensures r.Some? ==> 0.0 <= r.value <= 100.0
  {
    match TitleTerm(topic, title)
    case None => None
    case Some(t) =>
      Some(t + ViewTerm(views) + EngagementTerm(views, likes, comments)
           + DurationTerm(Duration.ParseDuration(durationCode)) + RecencyTerm(daysOld))
  }
}
