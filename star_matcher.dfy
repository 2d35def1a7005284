/**
 * Matching of detected image stars to projected catalog stars: for every image star the nearest
 * in-field catalog star is taken (the earliest one on ties), and the pair is kept only when that
 * distance is below the matching radius. A catalog star may be matched by several image stars.
 */
module StarMatcher {
  import opened Wrappers

  /** One star found on an image: row, column, background level and intensity, in CALSTARS order. */
  datatype DetectedStar = DetectedStar(y: real, x: real, bgLevel: real, level: real)

  /** An accepted pair: index of the image star, index of the catalog star, and their distance. */
  datatype Match = Match(imgIndex: nat, catIndex: nat, dist: real)

  /** The best catalog candidate so far: its position in the candidate list and its distance. */
  datatype Candidate = Candidate(pos: nat, dist: real)

  /** The square root, supplied by the caller (floating point is not modelled). */
  type Sqrt = real -> real

  /** What the model relies on about the square root, where it relies on anything. */
  ghost predicate SqrtSign(sqrt: Sqrt) {
    forall v :: 0.0 <= v ==> 0.0 <= sqrt(v) && (0.0 < v ==> 0.0 < sqrt(v))
  }

  /** Euclidean distance between an image star and a point in image coordinates. */
  function Distance(s: DetectedStar, cx: real, cy: real, sqrt: Sqrt): real {
    sqrt((s.x - cx) * (s.x - cx) + (s.y - cy) * (s.y - cy))
  }

  lemma DistanceNonNegative(s: DetectedStar, cx: real, cy: real, sqrt: Sqrt)
    requires SqrtSign(sqrt)
    ensures 0.0 <= Distance(s, cx, cy, sqrt)
  {
    var dx, dy := s.x - cx, s.y - cy;
    assert 0.0 <= dx * dx && 0.0 <= dy * dy;
  }

  /** The candidate indices all address a projected catalog star. */
  predicate ValidCandidates(catX: seq<real>, catY: seq<real>, good: seq<nat>) {
    |catX| == |catY| && forall i :: 0 <= i < |good| ==> good[i] < |catX|
  }

  /** Distance from `s` to the candidate at position `i` of `good`. */
  function CandidateDistance(s: DetectedStar, catX: seq<real>, catY: seq<real>, good: seq<nat>, i: nat, sqrt: Sqrt): real
    requires ValidCandidates(catX, catY, good) && i < |good|
  {
    Distance(s, catX[good[i]], catY[good[i]], sqrt)
  }

  /**
   * The candidate a left-to-right scan with a strict `<` settles on; `None` when there are no
   * candidates. `NearestIsMinimum` shows it is the closest one, and among equally close ones the first.
   */
  function Nearest(s: DetectedStar, catX: seq<real>, catY: seq<real>, good: seq<nat>, sqrt: Sqrt): (r: Option<Candidate>)
    requires ValidCandidates(catX, catY, good)
    ensures r.None? <==> |good| == 0
    ensures r.Some? ==> r.value.pos < |good| && r.value.dist == CandidateDistance(s, catX, catY, good, r.value.pos, sqrt)
    decreases |good|
  {
    if |good| == 0 then None
    else
      var n := |good| - 1;
      var prev := Nearest(s, catX, catY, good[..n], sqrt);
      var d := CandidateDistance(s, catX, catY, good, n, sqrt);
      if prev.None? || d < prev.value.dist then Some(Candidate(n, d))
      else
        assert good[..n][prev.value.pos] == good[prev.value.pos];
        prev
  }

  /** No candidate is closer than the chosen one, and every candidate before it is strictly farther. */
  lemma {:induction false} NearestIsMinimum(s: DetectedStar, catX: seq<real>, catY: seq<real>, good: seq<nat>, sqrt: Sqrt)
    requires ValidCandidates(catX, catY, good) && |good| > 0
    ensures var r := Nearest(s, catX, catY, good, sqrt).value;
      && (forall i :: 0 <= i < |good| ==> r.dist <= CandidateDistance(s, catX, catY, good, i, sqrt))
      && (forall i :: 0 <= i < r.pos ==> r.dist < CandidateDistance(s, catX, catY, good, i, sqrt))
    decreases |good|
  {
    var n := |good| - 1;
    assert forall i :: 0 <= i < n ==> good[..n][i] == good[i];
    if n > 0 {
      NearestIsMinimum(s, catX, catY, good[..n], sqrt);
      assert forall i :: 0 <= i < n ==>
        CandidateDistance(s, catX, catY, good[..n], i, sqrt) == CandidateDistance(s, catX, catY, good, i, sqrt);
    }
  }

  /** Exactly one candidate position is the closest with no equally close candidate before it: the chosen one. */
  lemma NearestIsFirstMinimum(s: DetectedStar, catX: seq<real>, catY: seq<real>, good: seq<nat>, sqrt: Sqrt, p: nat)
    requires ValidCandidates(catX, catY, good) && p < |good|
    requires forall i :: 0 <= i < |good| ==> CandidateDistance(s, catX, catY, good, p, sqrt) <= CandidateDistance(s, catX, catY, good, i, sqrt)
    requires forall i :: 0 <= i < p ==> CandidateDistance(s, catX, catY, good, p, sqrt) < CandidateDistance(s, catX, catY, good, i, sqrt)
    ensures Nearest(s, catX, catY, good, sqrt) == Some(Candidate(p, CandidateDistance(s, catX, catY, good, p, sqrt)))
  {
    NearestIsMinimum(s, catX, catY, good, sqrt);
  }

  /** Whether image star `s` is accepted, and with which catalog star and distance. */
  function Accept(s: DetectedStar, catX: seq<real>, catY: seq<real>, good: seq<nat>, maxRadius: real, sqrt: Sqrt): (r: Option<(nat, real)>)
    requires ValidCandidates(catX, catY, good)
    ensures r.Some? <==> Nearest(s, catX, catY, good, sqrt).Some? && Nearest(s, catX, catY, good, sqrt).value.dist < maxRadius
  {
    var b := Nearest(s, catX, catY, good, sqrt);
    if b.Some? && b.value.dist < maxRadius then Some((good[b.value.pos], b.value.dist)) else None
  }

  /** The matches of the image stars, in image-star order. */
  function MatchSpec(stars: seq<DetectedStar>, catX: seq<real>, catY: seq<real>, good: seq<nat>, maxRadius: real, sqrt: Sqrt): (r: seq<Match>)
    requires ValidCandidates(catX, catY, good)
    ensures |r| <= |stars|
    ensures forall j :: 0 <= j < |r| ==> r[j].imgIndex < |stars|
    ensures forall j, k :: 0 <= j < k < |r| ==> r[j].imgIndex < r[k].imgIndex
    decreases |stars|
  {
    if |stars| == 0 then []
    else
      var n := |stars| - 1;
      var prev := MatchSpec(stars[..n], catX, catY, good, maxRadius, sqrt);
      var a := Accept(stars[n], catX, catY, good, maxRadius, sqrt);
      if a.Some? then prev + [Match(n, a.value.0, a.value.1)] else prev
  }

  /** Every match pairs an accepted image star with its nearest catalog star, at their distance. */
  lemma {:induction false} MatchSpecSound(stars: seq<DetectedStar>, catX: seq<real>, catY: seq<real>, good: seq<nat>, maxRadius: real, sqrt: Sqrt, j: nat)
    requires ValidCandidates(catX, catY, good)
    requires j < |MatchSpec(stars, catX, catY, good, maxRadius, sqrt)|
    ensures var m := MatchSpec(stars, catX, catY, good, maxRadius, sqrt)[j];
      Accept(stars[m.imgIndex], catX, catY, good, maxRadius, sqrt) == Some((m.catIndex, m.dist))
    decreases |stars|
  {
    var n := |stars| - 1;
    var prev := MatchSpec(stars[..n], catX, catY, good, maxRadius, sqrt);
    var r := MatchSpec(stars, catX, catY, good, maxRadius, sqrt);
    assert r[..|prev|] == prev;
    if j < |prev| {
      MatchSpecSound(stars[..n], catX, catY, good, maxRadius, sqrt, j);
      assert r[j] == prev[j];
      assert stars[..n][prev[j].imgIndex] == stars[prev[j].imgIndex];
    }
  }

  /** Every match distance is below the radius, and not negative. */
  lemma MatchDistanceBounds(stars: seq<DetectedStar>, catX: seq<real>, catY: seq<real>, good: seq<nat>, maxRadius: real, sqrt: Sqrt, j: nat)
    requires ValidCandidates(catX, catY, good) && SqrtSign(sqrt)
    requires j < |MatchSpec(stars, catX, catY, good, maxRadius, sqrt)|
    ensures 0.0 <= MatchSpec(stars, catX, catY, good, maxRadius, sqrt)[j].dist < maxRadius
  {
    var m := MatchSpec(stars, catX, catY, good, maxRadius, sqrt)[j];
    MatchSpecSound(stars, catX, catY, good, maxRadius, sqrt, j);
    var b := Nearest(stars[m.imgIndex], catX, catY, good, sqrt);
    DistanceNonNegative(stars[m.imgIndex], catX[good[b.value.pos]], catY[good[b.value.pos]], sqrt);
  }

  /** Image star `i` has a match in `ms`. */
  predicate Matched(ms: seq<Match>, i: nat) {
    exists j :: 0 <= j < |ms| && ms[j].imgIndex == i
  }

  /** An image star appears in the matches exactly when it is accepted. */
  lemma {:induction false} MatchedIffAccepted(stars: seq<DetectedStar>, catX: seq<real>, catY: seq<real>, good: seq<nat>, maxRadius: real, sqrt: Sqrt, i: nat)
    requires ValidCandidates(catX, catY, good) && i < |stars|
    ensures Matched(MatchSpec(stars, catX, catY, good, maxRadius, sqrt), i) <==> Accept(stars[i], catX, catY, good, maxRadius, sqrt).Some?
    decreases |stars|
  {
    var n := |stars| - 1;
    var r := MatchSpec(stars, catX, catY, good, maxRadius, sqrt);
    var prev := MatchSpec(stars[..n], catX, catY, good, maxRadius, sqrt);
    assert r[..|prev|] == prev;
    var acc := Accept(stars[i], catX, catY, good, maxRadius, sqrt).Some?;
    if i < n {
      MatchedIffAccepted(stars[..n], catX, catY, good, maxRadius, sqrt, i);
      assert stars[..n][i] == stars[i];
      if acc {
        var j :| 0 <= j < |prev| && prev[j].imgIndex == i;
        assert r[j] == prev[j];
      } else {
        forall j | 0 <= j < |r| ensures r[j].imgIndex != i {
          if j < |prev| {
            assert r[j] == prev[j];
          }
        }
      }
    } else if acc {
      assert r[|r| - 1].imgIndex == i;
    } else {
      assert r == prev;
    }
  }

  /** The matches whose distance is below `radius`, in order. */
  function Within(ms: seq<Match>, radius: real): (r: seq<Match>)
    ensures |r| <= |ms|
    ensures forall j :: 0 <= j < |r| ==> r[j] in ms && r[j].dist < radius
  {
    if |ms| == 0 then []
    else
      var prev := Within(ms[..|ms| - 1], radius);
      if ms[|ms| - 1].dist < radius then prev + [ms[|ms| - 1]] else prev
  }

  /** Accepting with a smaller radius keeps an acceptance only when its distance is below that radius. */
  lemma AcceptRadius(s: DetectedStar, catX: seq<real>, catY: seq<real>, good: seq<nat>, r1: real, r2: real, sqrt: Sqrt)
    requires ValidCandidates(catX, catY, good) && r1 <= r2
    ensures var a2 := Accept(s, catX, catY, good, r2, sqrt);
      Accept(s, catX, catY, good, r1, sqrt) == if a2.Some? && a2.value.1 < r1 then a2 else None
  {
  }

  /**
   * Shrinking the radius only removes matches: matching with the smaller radius keeps exactly the
   * pairs of the larger one whose distance is below it.
   */
  lemma {:induction false} MatchRadiusMonotone(stars: seq<DetectedStar>, catX: seq<real>, catY: seq<real>, good: seq<nat>, r1: real, r2: real, sqrt: Sqrt)
    requires ValidCandidates(catX, catY, good) && r1 <= r2
    ensures MatchSpec(stars, catX, catY, good, r1, sqrt) == Within(MatchSpec(stars, catX, catY, good, r2, sqrt), r1)
    ensures |MatchSpec(stars, catX, catY, good, r1, sqrt)| <= |MatchSpec(stars, catX, catY, good, r2, sqrt)|
    decreases |stars|
  {
    if |stars| > 0 {
      var n := |stars| - 1;
      MatchRadiusMonotone(stars[..n], catX, catY, good, r1, r2, sqrt);
      MatchRadiusStep(stars, catX, catY, good, r1, r2, sqrt);
    }
  }

  /** The step of `MatchRadiusMonotone`: the last image star is kept with the smaller radius exactly when its distance is below it. */
  lemma MatchRadiusStep(stars: seq<DetectedStar>, catX: seq<real>, catY: seq<real>, good: seq<nat>, r1: real, r2: real, sqrt: Sqrt)
    requires ValidCandidates(catX, catY, good) && r1 <= r2 && |stars| > 0
    requires var n := |stars| - 1;
      MatchSpec(stars[..n], catX, catY, good, r1, sqrt) == Within(MatchSpec(stars[..n], catX, catY, good, r2, sqrt), r1)
    ensures MatchSpec(stars, catX, catY, good, r1, sqrt) == Within(MatchSpec(stars, catX, catY, good, r2, sqrt), r1)
  {
    var n := |stars| - 1;
    AcceptRadius(stars[n], catX, catY, good, r1, r2, sqrt);
    var big := MatchSpec(stars, catX, catY, good, r2, sqrt);
    var bigPrev := MatchSpec(stars[..n], catX, catY, good, r2, sqrt);
    var a2 := Accept(stars[n], catX, catY, good, r2, sqrt);
    if a2.Some? {
      assert big == bigPrev + [Match(n, a2.value.0, a2.value.1)];
      assert big[..|big| - 1] == bigPrev;
    } else {
      assert big == bigPrev;
    }
  }

  /** Extending the candidate list by one: the new candidate wins only when it is strictly closer. */
  lemma NearestStep(s: DetectedStar, catX: seq<real>, catY: seq<real>, good: seq<nat>, j: nat, sqrt: Sqrt)
    requires ValidCandidates(catX, catY, good) && j < |good|
    ensures ValidCandidates(catX, catY, good[..j]) && ValidCandidates(catX, catY, good[..j + 1])
    ensures var b := Nearest(s, catX, catY, good[..j], sqrt);
      var d := Distance(s, catX[good[j]], catY[good[j]], sqrt);
      Nearest(s, catX, catY, good[..j + 1], sqrt) == if b.None? || d < b.value.dist then Some(Candidate(j, d)) else b
    ensures var b := Nearest(s, catX, catY, good[..j], sqrt);
      b.Some? ==> good[..j + 1][b.value.pos] == good[..j][b.value.pos]
  {
    assert good[..j + 1][..j] == good[..j];
    assert good[..j + 1][j] == good[j];
  }

  /** The scan over image stars and catalog candidates; `found` stands for a minimum distance still at infinity. */
  method MatchStars(stars: seq<DetectedStar>, catX: seq<real>, catY: seq<real>, good: seq<nat>, maxRadius: real, sqrt: Sqrt)
    returns (matched: seq<Match>)
    requires ValidCandidates(catX, catY, good)
    ensures matched == MatchSpec(stars, catX, catY, good, maxRadius, sqrt)
  {
    matched := [];
    var i := 0;
    while i < |stars|
      invariant 0 <= i <= |stars|
      invariant matched == MatchSpec(stars[..i], catX, catY, good, maxRadius, sqrt)
    {
      var found := false;
      var minDist := 0.0;
      var matchIndex := 0;
      var j := 0;
      while j < |good|
        invariant 0 <= j <= |good|
        invariant ValidCandidates(catX, catY, good[..j])
        invariant var b := Nearest(stars[i], catX, catY, good[..j], sqrt);
          found == b.Some? && (found ==> minDist == b.value.dist && matchIndex == good[..j][b.value.pos])
      {
        var k := good[j];
        var dist := Distance(stars[i], catX[k], catY[k], sqrt);
        NearestStep(stars[i], catX, catY, good, j, sqrt);
        if !found || dist < minDist {
          found, minDist, matchIndex := true, dist, k;
        }
        j := j + 1;
      }
      assert good[..j] == good;
      assert stars[..i + 1][..i] == stars[..i];
      assert stars[..i + 1][i] == stars[i];
      assert Accept(stars[i], catX, catY, good, maxRadius, sqrt) ==
        if found && minDist < maxRadius then Some((matchIndex, minDist)) else None;
      if found && minDist < maxRadius {
        matched := matched + [Match(i, matchIndex, minDist)];
      }
      i := i + 1;
    }
    assert stars[..i] == stars;
  }
}
