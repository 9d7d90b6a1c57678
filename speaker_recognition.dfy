/**
 * The speaker clusterer of the meeting transcriber (meeting-transcriber/speaker-recognition.js):
 * online clustering of per-utterance feature vectors into speakers by cosine similarity
 * to each speaker's centroid. The speakers `Map` is a sequence in insertion order, which
 * is the order a `Map` iterates in; ids are proved distinct, so a key is never set twice.
 *
 * Square roots are not modelled: the clusterer is built with a `sqrt` function of
 * its caller's choosing, and every property below holds whatever that function is.
 */
module SpeakerRecognition {
  import opened Wrappers
  import opened Text

  // ---------------------------------------------------------------------------
  // Feature vectors

  /** The 13 band energies (`mfccLike`) the audio processor produces. */
  type BandEnergies = s: seq<real> | |s| == 13 witness seq(13, _ => 0.0)

  /** The features record the clusterer reads (the audio processor's other fields are not used). */
  datatype Features = Features(spectralCentroid: real, zeroCrossingRate: real, rmsEnergy: real, mfccLike: BandEnergies)

  type Vector = seq<real>

  /** The length of every feature vector: three scalars and the 13 bands. */
  const Dim: nat := 16

  /** `createFeatureVector`: the centroid over 8000, the crossing rate, ten times the energy, the bands over 20. */
  function FeatureVector(f: Features): (v: Vector)
    ensures |v| == Dim
    ensures v[0] == f.spectralCentroid / 8000.0 && v[1] == f.zeroCrossingRate && v[2] == f.rmsEnergy * 10.0
    ensures forall i :: 0 <= i < 13 ==> v[3 + i] == f.mfccLike[i] / 20.0
  {
    [f.spectralCentroid / 8000.0, f.zeroCrossingRate, f.rmsEnergy * 10.0]
      + seq(13, i requires 0 <= i < 13 => f.mfccLike[i] / 20.0)
  }

  predicate HasDim(vs: seq<Vector>) {
    forall k :: 0 <= k < |vs| ==> |vs[k]| == Dim
  }

  /** All vectors as long as the first (the dimension `calculateCentroid` takes). */
  predicate Uniform(vs: seq<Vector>) {
    forall k :: 0 <= k < |vs| ==> |vs[k]| == |vs[0]|
  }

  // ---------------------------------------------------------------------------
  // Similarity

  /** The dot product of two vectors of equal length, summed left to right. */
  function Dot(a: Vector, b: Vector): real
    requires |a| == |b|
  {
    if a == [] then 0.0 else Dot(a[..|a| - 1], b[..|b| - 1]) + a[|a| - 1] * b[|b| - 1]
  }

  /**
   * `calculateSimilarity`: the cosine of the two vectors, or 0 when the second is missing
   * (a speaker without a centroid), the lengths differ, or the norm product is not positive.
   */
  function Similarity(sqrt: real -> real, a: Vector, b: Option<Vector>): real
  {
    if b.None? || |a| != |b.value| then 0.0
    else
      var den := sqrt(Dot(a, a)) * sqrt(Dot(b.value, b.value));
      if den > 0.0 then Dot(a, b.value) / den else 0.0
  }

  lemma DotStep(a: Vector, b: Vector, i: nat)
    requires |a| == |b| && i < |a|
    ensures Dot(a[..i + 1], b[..i + 1]) == Dot(a[..i], b[..i]) + a[i] * b[i]
  {
    assert a[..i + 1][..i] == a[..i];
    assert b[..i + 1][..i] == b[..i];
  }

  lemma {:induction false} DotSymmetric(a: Vector, b: Vector)
    requires |a| == |b|
    ensures Dot(a, b) == Dot(b, a)
  {
    if a != [] {
      DotSymmetric(a[..|a| - 1], b[..|b| - 1]);
    }
  }

  /** Cosine similarity does not depend on the order of its arguments. */
  lemma SimilaritySymmetric(sqrt: real -> real, a: Vector, b: Vector)
    requires |a| == |b|
    ensures Similarity(sqrt, a, Some(b)) == Similarity(sqrt, b, Some(a))
  {
    DotSymmetric(a, b);
    var x, y := sqrt(Dot(a, a)), sqrt(Dot(b, b));
    assert x * y == y * x;
  }

  /** The similarities of v to each speaker's centroid, in speaker order. */
  function Sims(sqrt: real -> real, v: Vector, speakers: seq<Speaker>): (s: seq<real>)
    ensures |s| == |speakers|
  {
    seq(|speakers|, k requires 0 <= k < |speakers| => Similarity(sqrt, v, speakers[k].centroid))
  }

  /**
   * The position of the first maximum: the loop that starts from -Infinity and replaces
   * its candidate only on a strictly greater value.
   */
  function ArgMax(s: seq<real>): (r: Option<nat>)
    ensures r.None? <==> s == []
    ensures r.Some? ==> r.value < |s|
    ensures r.Some? ==> forall k :: 0 <= k < |s| ==> s[k] <= s[r.value]
    ensures r.Some? ==> forall k :: 0 <= k < r.value ==> s[k] < s[r.value]
  {
    if s == [] then None
    else
      var p := s[..|s| - 1];
      assert forall k :: 0 <= k < |p| ==> p[k] == s[k];
      match ArgMax(p)
      case None => Some(|s| - 1)
      case Some(j) => if s[|s| - 1] > s[j] then Some(|s| - 1) else Some(j)
  }

  /** The summed similarity of v to every vector of the history. */
  function SumSim(sqrt: real -> real, v: Vector, history: seq<Vector>): real
  {
    if history == [] then 0.0
    else SumSim(sqrt, v, history[..|history| - 1]) + Similarity(sqrt, v, Some(history[|history| - 1]))
  }

  /** `calculateAverageHistorySimilarity`: the mean similarity of the incoming vector to the history. */
  function AverageSimilarity(sqrt: real -> real, v: Vector, history: seq<Vector>): real
  {
    if |history| == 0 then 0.0 else SumSim(sqrt, v, history) / (|history| as real)
  }

  /** `shouldCreateNewSpeaker`: at least 5 pending vectors, and the incoming one agrees with them on average. */
  predicate ShouldCreate(sqrt: real -> real, history: seq<Vector>, v: Vector)
  {
    |history| >= 5 && AverageSimilarity(sqrt, v, history) > 0.8
  }

  const MinFeatureSamples: nat := 5
  const HistoryMaxSize: nat := 50
  const FeaturesMaxSize: nat := 100
  const SilenceThreshold: real := 0.01
  const SimilarityThreshold: real := 0.7

  /** Below the minimum number of pending vectors no speaker is ever created, whatever they are. */
  lemma NoCreationBelowMinimum(sqrt: real -> real, history: seq<Vector>, v: Vector)
    ensures |history| < MinFeatureSamples ==> !ShouldCreate(sqrt, history, v)
    ensures ShouldCreate(sqrt, history, v) ==> SumSim(sqrt, v, history) > 0.8 * (|history| as real)
  {
    if ShouldCreate(sqrt, history, v) {
      var n := |history| as real;
      var s := SumSim(sqrt, v, history);
      assert s / n > 0.8;
      assert s == (s / n) * n;
    }
  }

  // ---------------------------------------------------------------------------
  // Centroids

  /** The sum of column i over a list of vectors. */
  function ColumnSum(vs: seq<Vector>, i: nat): real
    requires forall k :: 0 <= k < |vs| ==> i < |vs[k]|
  {
    if vs == [] then 0.0 else ColumnSum(vs[..|vs| - 1], i) + vs[|vs| - 1][i]
  }

  /** `calculateCentroid`: null for no vectors, else the componentwise mean. */
  function Centroid(vs: seq<Vector>): Option<Vector>
    requires Uniform(vs)
  {
    if vs == [] then None
    else Some(seq(|vs[0]|, i requires 0 <= i < |vs[0]| => ColumnSum(vs, i) / (|vs| as real)))
  }

  lemma ColumnSumStep(vs: seq<Vector>, k: nat, i: nat)
    requires k < |vs| && forall j :: 0 <= j < |vs| ==> i < |vs[j]|
    ensures ColumnSum(vs[..k + 1], i) == ColumnSum(vs[..k], i) + vs[k][i]
  {
    assert vs[..k + 1][..k] == vs[..k];
  }

  lemma {:induction false} ColumnSumOfCopies(v: Vector, n: nat, i: nat)
    requires i < |v|
    ensures ColumnSum(seq(n, _ => v), i) == (n as real) * v[i]
  {
    if n > 0 {
      assert seq(n, _ => v)[..n - 1] == seq(n - 1, _ => v);
      ColumnSumOfCopies(v, n - 1, i);
    }
  }

  /** The mean of n copies of a vector is that vector. */
  lemma CentroidOfCopies(v: Vector, n: nat)
    requires n >= 1
    ensures Centroid(seq(n, _ => v)) == Some(v)
  {
    var vs := seq(n, _ => v);
    assert vs[0] == v;
    var c := Centroid(vs).value;
    assert |c| == |v|;
    forall i | 0 <= i < |v|
      ensures c[i] == v[i]
    {
      ColumnSumOfCopies(v, n, i);
      var m := n as real;
      assert c[i] == (m * v[i]) / m;
    }
    assert c == v;
  }

  // ---------------------------------------------------------------------------
  // Bounded lists

  /** `push` followed by one `shift` when the list has grown past cap. */
  function PushCapped<T>(xs: seq<T>, x: T, cap: nat): seq<T>
  {
    var ys := xs + [x];
    if |ys| > cap then ys[1..] else ys
  }

  function Min(a: nat, b: nat): nat { if a <= b then a else b }

  /** Pushing each of ys in turn. */
  function PushAll<T>(xs: seq<T>, ys: seq<T>, cap: nat): seq<T>
  {
    if ys == [] then xs else PushCapped(PushAll(xs, ys[..|ys| - 1], cap), ys[|ys| - 1], cap)
  }

  /**
   * A capped list always holds exactly the cap most recent entries pushed (all of them
   * while fewer were pushed): the oldest is dropped first.
   */
  lemma {:induction false} PushAllWindow<T>(xs: seq<T>, ys: seq<T>, cap: nat)
    requires cap >= 1 && |xs| <= cap
    ensures var all := xs + ys;
      PushAll(xs, ys, cap) == all[|all| - Min(|all|, cap)..]
  {
    if ys != [] {
      var p := ys[..|ys| - 1];
      PushAllWindow(xs, p, cap);
      var all := xs + ys;
      var q := xs + p;
      var w := q[|q| - Min(|q|, cap)..];
      assert all == q + [ys[|ys| - 1]];
      assert w + [ys[|ys| - 1]] == all[|q| - Min(|q|, cap)..];
    }
  }

  // ---------------------------------------------------------------------------
  // Speakers

  datatype Speaker = Speaker(
    id: string,
    name: string,
    features: seq<Vector>,
    centroid: Option<Vector>,
    color: string,
    utteranceCount: nat,
    totalDuration: nat)

  const Colors: seq<string> := ["#3b82f6", "#10b981", "#f59e0b", "#ef4444", "#8b5cf6", "#ec4899", "#06b6d4", "#84cc16"]

  /** The id of the k-th speaker created (`speaker_${k}`). */
  function SpeakerId(k: nat): string { "speaker_" + NatToString(k) }

  /** The default name of the k-th speaker (`話者 ${k}`). */
  function DefaultName(k: nat): string { "話者 " + NatToString(k) }

  /** The colour of the k-th speaker: the palette in order, cycling every 8. */
  function ColorFor(k: nat): string
    requires k >= 1
  {
    Colors[(k - 1) % |Colors|]
  }

  /** The speaker `createNewSpeaker` adds as the k-th: its features, their centroid, zero counts. */
  function NewSpeaker(k: nat, features: seq<Vector>): Speaker
    requires k >= 1 && Uniform(features)
  {
    Speaker(SpeakerId(k), DefaultName(k), features, Centroid(features), ColorFor(k), 0, 0)
  }

  /** The speaker `addManualSpeaker(name)` adds as the k-th: no features and no centroid. */
  function ManualSpeaker(k: nat, name: string): Speaker
    requires k >= 1
  {
    Speaker(SpeakerId(k), if name != "" then name else DefaultName(k), [], None, ColorFor(k), 0, 0)
  }

  /** `updateSpeakerFeatures` on one speaker: push the vector (at most 100 kept) and recompute the centroid. */
  function Absorb(s: Speaker, v: Vector): Speaker
    requires Uniform(PushCapped(s.features, v, FeaturesMaxSize))
  {
    var fs := PushCapped(s.features, v, FeaturesMaxSize);
    s.(features := fs, centroid := Centroid(fs))
  }

  /** One more utterance counted for the speaker with that id; the others and every other field are untouched. */
  function Credited(speakers: seq<Speaker>, id: string): seq<Speaker>
  {
    match Find(speakers, id)
    case None => speakers
    case Some(k) => speakers[k := speakers[k].(utteranceCount := speakers[k].utteranceCount + 1)]
  }

  /** The name of the speaker with that id replaced; the others and every other field are untouched. */
  function WithName(speakers: seq<Speaker>, id: string, name: string): seq<Speaker>
  {
    match Find(speakers, id)
    case None => speakers
    case Some(k) => speakers[k := speakers[k].(name := name)]
  }

  /** A speaker as the clusterer keeps it: at most 100 vectors of dimension 16, and their centroid. */
  predicate WellFormed(s: Speaker) {
    && |s.features| <= FeaturesMaxSize
    && HasDim(s.features)
    && Uniform(s.features)
    && s.centroid == Centroid(s.features)
  }

  /** Position of the speaker with this id (`speakers.get(id)`). */
  function Find(speakers: seq<Speaker>, id: string): (r: Option<nat>)
    ensures r.Some? ==> r.value < |speakers| && speakers[r.value].id == id
    ensures r.None? ==> forall k :: 0 <= k < |speakers| ==> speakers[k].id != id
  {
    if speakers == [] then None
    else if speakers[0].id == id then Some(0)
    else match Find(speakers[1..], id)
      case None => None
      case Some(k) => Some(k + 1)
  }

  /**
   * The speakers' ids and colours come from the creation counter: speaker k was the
   * serials[k]-th created, serials strictly increase, and none exceeds the counter.
   */
  predicate Numbered(speakers: seq<Speaker>, serials: seq<nat>, count: nat) {
    && |serials| == |speakers|
    && (forall j, k :: 0 <= j < k < |serials| ==> serials[j] < serials[k])
    && (forall k :: 0 <= k < |serials| ==> 1 <= serials[k] <= count)
    && (forall k :: 0 <= k < |serials| ==> speakers[k].id == SpeakerId(serials[k]) && speakers[k].color == ColorFor(serials[k]))
  }

  lemma SpeakerIdInjective(a: nat, b: nat)
    ensures SpeakerId(a) == SpeakerId(b) ==> a == b
  {
    if SpeakerId(a) == SpeakerId(b) {
      var p := "speaker_";
      assert NatToString(a) == SpeakerId(a)[|p|..];
      assert NatToString(b) == SpeakerId(b)[|p|..];
      NatToStringInjective(a, b);
    }
  }

  /** Ids drawn from a monotone counter are pairwise distinct. */
  lemma IdsDistinct(speakers: seq<Speaker>, serials: seq<nat>, count: nat)
    requires Numbered(speakers, serials, count)
    ensures forall j, k :: 0 <= j < k < |speakers| ==> speakers[j].id != speakers[k].id
  {
    forall j, k | 0 <= j < k < |speakers|
      ensures speakers[j].id != speakers[k].id
    {
      SpeakerIdInjective(serials[j], serials[k]);
    }
  }

  /** The next speaker created gets an id no current speaker has. */
  lemma NextIdIsFresh(speakers: seq<Speaker>, serials: seq<nat>, count: nat)
    requires Numbered(speakers, serials, count)
    ensures Find(speakers, SpeakerId(count + 1)).None?
  {
    forall k | 0 <= k < |speakers|
      ensures speakers[k].id != SpeakerId(count + 1)
    {
      SpeakerIdInjective(serials[k], count + 1);
    }
  }

  lemma NumberedExtend(speakers: seq<Speaker>, serials: seq<nat>, count: nat, s: Speaker)
    requires Numbered(speakers, serials, count)
    requires s.id == SpeakerId(count + 1) && s.color == ColorFor(count + 1)
    ensures Numbered(speakers + [s], serials + [count + 1], count + 1)
  {
  }

  lemma HasDimUniform(vs: seq<Vector>)
    requires HasDim(vs)
    ensures Uniform(vs)
  {
  }

  lemma PushCappedDim(xs: seq<Vector>, v: Vector, cap: nat)
    requires HasDim(xs) && |v| == Dim
    ensures HasDim(PushCapped(xs, v, cap)) && Uniform(PushCapped(xs, v, cap))
    ensures |xs| <= cap && cap >= 1 ==> |PushCapped(xs, v, cap)| <= cap
  {
  }

  // ---------------------------------------------------------------------------
  // The clusterer

  class SpeakerRecognition {
    var speakers: seq<Speaker>
    var speakerCount: nat
    var featureHistory: seq<Vector>
    var currentSpeakerId: Option<string>
    var enabled: bool
    const sqrt: real -> real
    /** Which creation each speaker came from (ids and colours are derived from it). */
    ghost var serials: seq<nat>

    ghost predicate Valid()
      reads this
    {
      && Numbered(speakers, serials, speakerCount)
      && (forall k :: 0 <= k < |speakers| ==> WellFormed(speakers[k]))
      && |featureHistory| <= HistoryMaxSize
      && HasDim(featureHistory)
      && (currentSpeakerId.Some? ==> Find(speakers, currentSpeakerId.value).Some?)
    }

    constructor (sqrt: real -> real)
      ensures Valid()
      ensures this.sqrt == sqrt
      ensures speakers == [] && speakerCount == 0 && featureHistory == [] && currentSpeakerId.None? && enabled
    {
      this.sqrt := sqrt;
      speakers := [];
      speakerCount := 0;
      featureHistory := [];
      currentSpeakerId := None;
      enabled := true;
      serials := [];
    }

    method SetEnabled(enabled: bool)
      modifies this`enabled
      ensures this.enabled == enabled
    {
      this.enabled := enabled;
    }

    /** `calculateSimilarity`, by the accumulating loop of the source. */
    method CalculateSimilarity(vec1: Vector, vec2: Option<Vector>) returns (r: real)
      ensures r == Similarity(sqrt, vec1, vec2)
    {
      if vec2.None? || |vec1| != |vec2.value| {
        return 0.0;
      }
      var b := vec2.value;
      var dot, norm1, norm2 := 0.0, 0.0, 0.0;
      var i := 0;
      while i < |vec1|
        invariant i <= |vec1|
        invariant dot == Dot(vec1[..i], b[..i])
        invariant norm1 == Dot(vec1[..i], vec1[..i])
        invariant norm2 == Dot(b[..i], b[..i])
      {
        DotStep(vec1, b, i);
        DotStep(vec1, vec1, i);
        DotStep(b, b, i);
        dot := dot + vec1[i] * b[i];
        norm1 := norm1 + vec1[i] * vec1[i];
        norm2 := norm2 + b[i] * b[i];
        i := i + 1;
      }
      assert vec1[..i] == vec1 && b[..i] == b;
      var den := sqrt(norm1) * sqrt(norm2);
      r := if den > 0.0 then dot / den else 0.0;
    }

    /** `calculateAverageHistorySimilarity`. */
    method CalculateAverageHistorySimilarity(v: Vector) returns (r: real)
      ensures r == AverageSimilarity(sqrt, v, featureHistory)
    {
      if |featureHistory| == 0 {
        return 0.0;
      }
      var total := 0.0;
      var i := 0;
      while i < |featureHistory|
        invariant i <= |featureHistory|
        invariant total == SumSim(sqrt, v, featureHistory[..i])
      {
        assert featureHistory[..i + 1][..i] == featureHistory[..i];
        var s := CalculateSimilarity(v, Some(featureHistory[i]));
        total := total + s;
        i := i + 1;
      }
      assert featureHistory[..i] == featureHistory;
      r := total / (|featureHistory| as real);
    }

    /** `shouldCreateNewSpeaker`. */
    method ShouldCreateNewSpeaker(v: Vector) returns (b: bool)
      ensures b == ShouldCreate(sqrt, featureHistory, v)
    {
      if |featureHistory| < MinFeatureSamples {
        return false;
      }
      var avg := CalculateAverageHistorySimilarity(v);
      b := avg > 0.8;
    }

    /** `calculateCentroid`, by the column-summing loops of the source. */
    method CalculateCentroid(vs: seq<Vector>) returns (c: Option<Vector>)
      requires Uniform(vs)
      ensures c == Centroid(vs)
    {
      if |vs| == 0 {
        return None;
      }
      var dimension := |vs[0]|;
      var sums := seq(dimension, _ => 0.0);
      var k := 0;
      while k < |vs|
        invariant k <= |vs| && |sums| == dimension
        invariant forall i :: 0 <= i < dimension ==> sums[i] == ColumnSum(vs[..k], i)
      {
        var i := 0;
        while i < dimension
          invariant i <= dimension && |sums| == dimension
          invariant forall j :: 0 <= j < i ==> sums[j] == ColumnSum(vs[..k + 1], j)
          invariant forall j :: i <= j < dimension ==> sums[j] == ColumnSum(vs[..k], j)
        {
          ColumnSumStep(vs, k, i);
          sums := sums[i := sums[i] + vs[k][i]];
          i := i + 1;
        }
        k := k + 1;
      }
      assert vs[..k] == vs;
      var mean := sums;
      var i := 0;
      while i < dimension
        invariant i <= dimension && |mean| == dimension
        invariant forall j :: 0 <= j < i ==> mean[j] == ColumnSum(vs, j) / (|vs| as real)
        invariant forall j :: i <= j < dimension ==> mean[j] == ColumnSum(vs, j)
      {
        mean := mean[i := mean[i] / (|vs| as real)];
        i := i + 1;
      }
      assert mean == seq(dimension, i requires 0 <= i < dimension => ColumnSum(vs, i) / (|vs| as real));
      c := Some(mean);
    }

    /** The best-matching speaker: the first with the highest similarity, by the source's loop. */
    method BestMatch(v: Vector) returns (best: Option<nat>, bestSimilarity: real)
      ensures best == ArgMax(Sims(sqrt, v, speakers))
      ensures best.Some? ==> bestSimilarity == Sims(sqrt, v, speakers)[best.value]
    {
      ghost var sims := Sims(sqrt, v, speakers);
      best, bestSimilarity := None, 0.0;
      var k := 0;
      while k < |speakers|
        invariant k <= |speakers|
        invariant best == ArgMax(sims[..k])
        invariant best.Some? ==> bestSimilarity == sims[best.value]
      {
        assert sims[..k + 1][..k] == sims[..k];
        var similarity := CalculateSimilarity(v, speakers[k].centroid);
        if best.None? || similarity > bestSimilarity {
          best, bestSimilarity := Some(k), similarity;
        }
        k := k + 1;
      }
      assert sims[..k] == sims;
    }

    /** `getSpeaker(id)`. */
    function GetSpeaker(id: string): (r: Option<Speaker>)
      reads this
      ensures r.Some? <==> exists k :: 0 <= k < |speakers| && speakers[k].id == id
      ensures r.Some? ==> r.value.id == id && r.value in speakers
    {
      match Find(speakers, id)
      case None => None
      case Some(k) => Some(speakers[k])
    }

    /** `createNewSpeaker(v)`: the next id and colour, the history plus v as features, and an empty history. */
    method CreateNewSpeaker(v: Vector) returns (id: string)
      requires Valid() && |v| == Dim
      modifies this`speakerCount, this`speakers, this`featureHistory, this`serials
      ensures Valid()
      ensures id == SpeakerId(old(speakerCount) + 1)
      ensures speakerCount == old(speakerCount) + 1
      ensures Uniform(old(featureHistory) + [v])
      ensures speakers == old(speakers) + [NewSpeaker(speakerCount, old(featureHistory) + [v])]
      ensures featureHistory == []
    {
      speakerCount := speakerCount + 1;
      id := SpeakerId(speakerCount);
      var all := featureHistory + [v];
      assert HasDim(all);
      HasDimUniform(all);
      var centroid := CalculateCentroid(all);
      var s := Speaker(id, DefaultName(speakerCount), all, centroid, ColorFor(speakerCount), 0, 0);
      NumberedExtend(speakers, serials, speakerCount - 1, s);
      FindAfterAppend(speakers, s, currentSpeakerId);
      speakers := speakers + [s];
      serials := serials + [speakerCount];
      featureHistory := [];
    }

    /** `updateSpeakerFeatures(id, v)`: a no-op for an unknown id. */
    method UpdateSpeakerFeatures(id: string, v: Vector)
      requires Valid() && |v| == Dim
      modifies this`speakers, this`featureHistory
      ensures Valid()
      ensures match Find(old(speakers), id)
              case None => speakers == old(speakers) && featureHistory == old(featureHistory)
              case Some(k) =>
                && Uniform(PushCapped(old(speakers)[k].features, v, FeaturesMaxSize))
                && speakers == old(speakers)[k := Absorb(old(speakers)[k], v)]
                && featureHistory == []
    {
      match Find(speakers, id)
      case None =>
      case Some(k) =>
        var s := speakers[k];
        PushCappedDim(s.features, v, FeaturesMaxSize);
        var fs := PushCapped(s.features, v, FeaturesMaxSize);
        var centroid := CalculateCentroid(fs);
        ReplaceKeeps(speakers, serials, speakerCount, k, s.(features := fs, centroid := centroid), currentSpeakerId);
        speakers := speakers[k := s.(features := fs, centroid := centroid)];
        featureHistory := [];
    }

    /**
     * `identifySpeaker(features)`: disabled or without features it changes nothing and
     * returns the current speaker; on silence it changes nothing and returns null;
     * otherwise it classifies the feature vector.
     */
    method IdentifySpeaker(features: Option<Features>) returns (r: Option<string>)
      requires Valid()
      modifies this`speakers, this`featureHistory, this`currentSpeakerId, this`speakerCount, this`serials
      ensures Valid()
      ensures !old(enabled) || features.None? ==> unchanged(this) && r == old(currentSpeakerId)
      ensures old(enabled) && features.Some? && features.value.rmsEnergy < SilenceThreshold ==>
        unchanged(this) && r.None?
      ensures old(enabled) && features.Some? && features.value.rmsEnergy >= SilenceThreshold ==>
        Classified(old(speakers), old(speakerCount), old(featureHistory), old(currentSpeakerId), FeatureVector(features.value), r)
      ensures r.Some? ==> r == currentSpeakerId && Find(speakers, r.value).Some?
    {
      if !enabled || features.None? {
        return currentSpeakerId;
      }
      if features.value.rmsEnergy < SilenceThreshold {
        return None;
      }
      r := Classify(FeatureVector(features.value));
    }

    /**
     * The state after a non-silent vector v arrived in the given state, and the id
     * returned: v joins the best-matching speaker when that similarity exceeds 0.7,
     * founds a new speaker when the pending history is large and consistent enough, or
     * else waits in the history.
     */
    ghost predicate Classified(speakers0: seq<Speaker>, count0: nat, history0: seq<Vector>,
                               current0: Option<string>, v: Vector, r: Option<string>)
      reads this
    {
      var sims := Sims(sqrt, v, speakers0);
      var best := ArgMax(sims);
      if best.Some? && sims[best.value] > SimilarityThreshold then
        var id := speakers0[best.value].id;
        && Uniform(PushCapped(speakers0[best.value].features, v, FeaturesMaxSize))
        && speakers == speakers0[best.value := Absorb(speakers0[best.value], v)]
        && featureHistory == [] && speakerCount == count0
        && currentSpeakerId == Some(id) && r == Some(id)
      else if ShouldCreate(sqrt, history0, v) then
        && Uniform(history0 + [v])
        && speakerCount == count0 + 1
        && speakers == speakers0 + [NewSpeaker(speakerCount, history0 + [v])]
        && featureHistory == []
        && currentSpeakerId == Some(SpeakerId(speakerCount)) && r == currentSpeakerId
      else
        && speakers == speakers0 && speakerCount == count0
        && featureHistory == PushCapped(history0, v, HistoryMaxSize)
        && currentSpeakerId == current0 && r == current0
    }

    /** The body of `identifySpeaker` past the gates. */
    method Classify(v: Vector) returns (r: Option<string>)
      requires Valid() && |v| == Dim
      modifies this`speakers, this`featureHistory, this`currentSpeakerId, this`speakerCount, this`serials
      ensures Valid()
      ensures Classified(old(speakers), old(speakerCount), old(featureHistory), old(currentSpeakerId), v, r)
    {
      var best, bestSimilarity := BestMatch(v);
      if best.Some? && bestSimilarity > SimilarityThreshold {
        r := JoinSpeaker(best.value, v);
        return;
      }
      var create := ShouldCreateNewSpeaker(v);
      if create {
        var id := CreateNewSpeaker(v);
        currentSpeakerId := Some(id);
        FindLast(speakers, id);
        return Some(id);
      }
      PushCappedDim(featureHistory, v, HistoryMaxSize);
      featureHistory := PushCapped(featureHistory, v, HistoryMaxSize);
      r := currentSpeakerId;
    }

    /** A match: v joins speaker k, who becomes the current speaker. */
    method JoinSpeaker(k: nat, v: Vector) returns (r: Option<string>)
      requires Valid() && |v| == Dim && k < |speakers|
      modifies this`speakers, this`featureHistory, this`currentSpeakerId
      ensures Valid()
      ensures Uniform(PushCapped(old(speakers)[k].features, v, FeaturesMaxSize))
      ensures speakers == old(speakers)[k := Absorb(old(speakers)[k], v)]
      ensures featureHistory == []
      ensures currentSpeakerId == Some(old(speakers)[k].id) && r == currentSpeakerId
    {
      var id := speakers[k].id;
      IdsDistinct(speakers, serials, speakerCount);
      FindDistinct(speakers, k);
      UpdateSpeakerFeatures(id, v);
      FindKeptIds(old(speakers), speakers, id);
      currentSpeakerId := Some(id);
      r := currentSpeakerId;
    }

    /** `updateSpeakerName(id, name)`: renames that speaker only; a no-op for an unknown id. */
    method UpdateSpeakerName(id: string, newName: string)
      requires Valid()
      modifies this`speakers
      ensures Valid()
      ensures speakers == WithName(old(speakers), id, newName)
    {
      match Find(speakers, id)
      case None =>
      case Some(k) =>
        ReplaceKeeps(speakers, serials, speakerCount, k, speakers[k].(name := newName), currentSpeakerId);
        speakers := speakers[k := speakers[k].(name := newName)];
    }

    /** `incrementUtteranceCount(id)`: counts one utterance for that speaker only; a no-op for an unknown id. */
    method IncrementUtteranceCount(id: string)
      requires Valid()
      modifies this`speakers
      ensures Valid()
      ensures speakers == Credited(old(speakers), id)
    {
      match Find(speakers, id)
      case None =>
      case Some(k) =>
        var s := speakers[k].(utteranceCount := speakers[k].utteranceCount + 1);
        ReplaceKeeps(speakers, serials, speakerCount, k, s, currentSpeakerId);
        speakers := speakers[k := s];
    }

    /** `reset()`: no speakers, an empty history, the counter back at 0 and no current speaker. */
    method Reset()
      modifies this`speakers, this`speakerCount, this`featureHistory, this`currentSpeakerId, this`serials
      ensures Valid()
      ensures speakers == [] && speakerCount == 0 && featureHistory == [] && currentSpeakerId.None?
    {
      speakers := [];
      speakerCount := 0;
      featureHistory := [];
      currentSpeakerId := None;
      serials := [];
    }

    /** `addManualSpeaker(name)`: the next id and colour from the shared counter, no features. */
    method AddManualSpeaker(name: string) returns (id: string)
      requires Valid()
      modifies this`speakerCount, this`speakers, this`serials
      ensures Valid()
      ensures speakerCount == old(speakerCount) + 1
      ensures id == SpeakerId(speakerCount)
      ensures speakers == old(speakers) + [ManualSpeaker(speakerCount, name)]
    {
      speakerCount := speakerCount + 1;
      id := SpeakerId(speakerCount);
      var s := ManualSpeaker(speakerCount, name);
      NumberedExtend(speakers, serials, speakerCount - 1, s);
      FindAfterAppend(speakers, s, currentSpeakerId);
      speakers := speakers + [s];
      serials := serials + [speakerCount];
    }
  }

  // ---------------------------------------------------------------------------
  // Frame lemmas for the class invariant

  /** Appending a speaker keeps every id that was found still found. */
  lemma FindAfterAppend(speakers: seq<Speaker>, s: Speaker, current: Option<string>)
    ensures current.Some? && Find(speakers, current.value).Some? ==> Find(speakers + [s], current.value).Some?
  {
    if current.Some? && Find(speakers, current.value).Some? {
      var k := Find(speakers, current.value).value;
      assert (speakers + [s])[k].id == current.value;
    }
  }

  /** The appended speaker's id is found. */
  lemma FindLast(speakers: seq<Speaker>, id: string)
    requires speakers != [] && speakers[|speakers| - 1].id == id
    ensures Find(speakers, id).Some?
  {
  }

  /** With distinct ids, the speaker at position k is the one found for its id. */
  lemma FindDistinct(speakers: seq<Speaker>, k: nat)
    requires k < |speakers|
    requires forall i, j :: 0 <= i < j < |speakers| ==> speakers[i].id != speakers[j].id
    ensures Find(speakers, speakers[k].id) == Some(k)
  {
  }

  /** Replacing speakers by ones with the same ids keeps every id found. */
  lemma FindKeptIds(before: seq<Speaker>, after: seq<Speaker>, id: string)
    requires |before| == |after| && forall k :: 0 <= k < |before| ==> before[k].id == after[k].id
    requires Find(before, id).Some?
    ensures Find(after, id).Some?
  {
    var k := Find(before, id).value;
    assert after[k].id == id;
  }

  /** Replacing a speaker by a well-formed one with the same id and colour keeps the invariant's parts. */
  lemma ReplaceKeeps(speakers: seq<Speaker>, serials: seq<nat>, count: nat, k: nat, s: Speaker, current: Option<string>)
    requires Numbered(speakers, serials, count) && k < |speakers|
    requires s.id == speakers[k].id && s.color == speakers[k].color
    requires current.Some? ==> Find(speakers, current.value).Some?
    ensures Numbered(speakers[k := s], serials, count)
    ensures current.Some? ==> Find(speakers[k := s], current.value).Some?
  {
    if current.Some? {
      FindKeptIds(speakers, speakers[k := s], current.value);
    }
  }
}
