/**
 * The radar chart of SubscaleRadar.tsx: each caption is wrapped into lines of
 * at most maxPerLine characters (at the first separator of a fixed list that
 * occurs, else into plain chunks), and each scale is plotted at its rating,
 * 3 when the record has none.
 */
module SubscaleRadar {
  import opened Wrappers
  import opened JsString
  import opened SubscaleMeta
  import opened EvaluationConversion
  import opened SubscaleScoring
  import opened Users
  import opened SubscaleAggregate

  /** The separators tried, in order; the sixth is a space followed by a full-width parenthesis. */
  const SEPARATORS: seq<string> := ["・", "／", "/", "(", "（", " ）", ")"]

  /** wrapJapaneseLabel returns a string or an array of lines. */
  datatype Wrapped = One(text: string) | Lines(lines: seq<string>)

  /** The concatenation of a list of strings. */
  function Flatten(xs: seq<string>): string {
    if xs == [] then [] else Flatten(xs[..|xs| - 1]) + xs[|xs| - 1]
  }

  lemma {:induction false} FlattenAppend(a: seq<string>, b: seq<string>)
    ensures Flatten(a + b) == Flatten(a) + Flatten(b)
  {
    if b == [] {
      assert a + b == a;
    } else {
      assert (a + b)[..|a + b| - 1] == a + b[..|b| - 1];
      assert (a + b)[|a + b| - 1] == b[|b| - 1];
      FlattenAppend(a, b[..|b| - 1]);
    }
  }

  /** The slices p.slice(i, i + m) for i = 0, m, 2m, ... below |p|. */
  function Chunks(p: string, m: int): seq<string>
    requires m > 0
    decreases |p|
  {
    if p == [] then []
    else if |p| <= m then [p]
    else [p[..m]] + Chunks(p[m..], m)
  }

  /** The chunks put back together give the string, and each has 1..m characters. */
  lemma {:induction false} ChunksSpec(p: string, m: int)
    requires m > 0
    ensures Flatten(Chunks(p, m)) == p
    ensures forall c :: c in Chunks(p, m) ==> 1 <= |c| <= m
  {
    ChunksFlatten(p, m);
    ChunksLengths(p, m);
  }

  lemma {:induction false} ChunksFlatten(p: string, m: int)
    requires m > 0
    ensures Flatten(Chunks(p, m)) == p
    decreases |p|
  {
    if p != [] {
      if |p| <= m {
        assert Flatten([p]) == Flatten([]) + p;
      } else {
        ChunksFlatten(p[m..], m);
        FlattenAppend([p[..m]], Chunks(p[m..], m));
        assert Flatten([p[..m]]) == Flatten([]) + p[..m];
        assert p[..m] + p[m..] == p;
      }
    }
  }

  lemma {:induction false} ChunksLengths(p: string, m: int)
    requires m > 0
    ensures forall c :: c in Chunks(p, m) ==> 1 <= |c| <= m
    decreases |p|
  {
    if |p| > m {
      ChunksLengths(p[m..], m);
    }
  }

  /** The chunks of every part, in order. */
  function ChunkAll(parts: seq<string>, m: int): seq<string>
    requires m > 0
  {
    if parts == [] then [] else ChunkAll(parts[..|parts| - 1], m) + Chunks(parts[|parts| - 1], m)
  }

  lemma {:induction false} ChunkAllSpec(parts: seq<string>, m: int)
    requires m > 0
    ensures Flatten(ChunkAll(parts, m)) == Flatten(parts)
    ensures forall c :: c in ChunkAll(parts, m) ==> 1 <= |c| <= m
  {
    if parts != [] {
      var init, p := parts[..|parts| - 1], parts[|parts| - 1];
      ChunkAllSpec(init, m);
      ChunksSpec(p, m);
      FlattenAppend(ChunkAll(init, m), Chunks(p, m));
    }
  }

  /** filter(Boolean): the empty parts dropped. */
  function NonEmpty(parts: seq<string>): (r: seq<string>)
    ensures forall x :: x in r ==> x in parts && x != []
  {
    if parts == [] then []
    else NonEmpty(parts[..|parts| - 1]) + (if parts[|parts| - 1] == [] then [] else [parts[|parts| - 1]])
  }

  lemma {:induction false} NonEmptyFlatten(parts: seq<string>)
    ensures Flatten(NonEmpty(parts)) == Flatten(parts)
  {
    if parts != [] {
      var init, p := parts[..|parts| - 1], parts[|parts| - 1];
      NonEmptyFlatten(init);
      if p != [] {
        FlattenAppend(NonEmpty(init), [p]);
        assert Flatten([p]) == Flatten([]) + p;
      } else {
        assert NonEmpty(parts) == NonEmpty(init) + [] == NonEmpty(init);
        assert Flatten(parts) == Flatten(init) + p;
        assert Flatten(init) + p == Flatten(init);
      }
    }
  }

  /** The first separator the string includes. */
  function FirstIncluded(s: string, seps: seq<string>): (r: Option<nat>)
    ensures r.Some? ==> r.value < |seps| && Includes(s, seps[r.value]) && forall j :: 0 <= j < r.value ==> !Includes(s, seps[j])
    ensures r.None? ==> forall j :: 0 <= j < |seps| ==> !Includes(s, seps[j])
  {
    if seps == [] then None
    else if Includes(s, seps[0]) then Some(0)
    else match FirstIncluded(s, seps[1..])
      case None => None
      case Some(k) => Some(k + 1)
  }

  /** The caption with a trailing ★ replaced by '*'. */
  function Clean(caption: string): string {
    ReplaceTrailing(caption, '★', "*")
  }

  /** The result of wrapJapaneseLabel. */
  function Wrap(caption: string, m: int): Wrapped
    requires m > 0
  {
    var clean := Clean(caption);
    match FirstIncluded(clean, SEPARATORS)
    case Some(k) => Lines(ChunkAll(NonEmpty(Split(clean, SEPARATORS[k])), m))
    case None => if |clean| <= m then One(clean) else Lines(Chunks(clean, m))
  }

  /** The inner for loop: the chunks of p pushed onto lines. */
  method PushChunks(lines: seq<string>, p: string, m: int) returns (lines': seq<string>)
    requires m > 0
    ensures lines' == lines + Chunks(p, m)
  {
    lines' := lines;
    var i := 0;
    while i < |p|
      invariant 0 <= i
      invariant i <= |p| ==> lines' + Chunks(p[i..], m) == lines + Chunks(p, m)
      invariant i > |p| ==> lines' == lines + Chunks(p, m)
      decreases |p| - i
    {
      var chunk := Slice(p, i, i + m);
      if i + m < |p| {
        assert chunk == p[i..][..m];
        assert p[i..][m..] == p[i + m..];
      } else {
        assert chunk == p[i..];
      }
      lines' := lines' + [chunk];
      i := i + m;
    }
    assert i == |p| ==> p[i..] == [];
  }

  /** wrapJapaneseLabel, for maxPerLine > 0 (otherwise its loops never end). */
  method WrapJapaneseLabel(caption: string, maxPerLine: int) returns (w: Wrapped)
    requires maxPerLine > 0
    ensures w == Wrap(caption, maxPerLine)
  {
    var clean := ReplaceTrailing(caption, '★', "*");
    var k := 0;
    while k < |SEPARATORS|
      invariant 0 <= k <= |SEPARATORS|
      invariant forall j :: 0 <= j < k ==> !Includes(clean, SEPARATORS[j])
    {
      var sep := SEPARATORS[k];
      if Includes(clean, sep) {
        assert FirstIncluded(clean, SEPARATORS) == Some(k);
        var parts := NonEmpty(Split(clean, sep));
        var lines := [];
        for n := 0 to |parts|
          invariant lines == ChunkAll(parts[..n], maxPerLine)
        {
          assert parts[..n + 1][..n] == parts[..n];
          lines := PushChunks(lines, parts[n], maxPerLine);
        }
        assert parts[..|parts|] == parts;
        return Lines(lines);
      }
      k := k + 1;
    }
    if |clean| <= maxPerLine {
      return One(clean);
    }
    var chunks := PushChunks([], clean, maxPerLine);
    return Lines(chunks);
  }

  /**
   * Every line has 1..maxPerLine characters, and the lines put back together
   * give the clean caption without its separator occurrences: splitting at a
   * separator loses only the separators, and joining the pieces with it
   * gives the clean caption back. A caption with no separator that fits is
   * returned as it is, and one that does not fit is cut into chunks that
   * concatenate to it.
   */
  lemma WrapSpec(caption: string, m: int)
    requires m > 0
    ensures Wrap(caption, m).One? ==> Wrap(caption, m).text == Clean(caption) && |Clean(caption)| <= m
    ensures FirstIncluded(Clean(caption), SEPARATORS).None? ==> (Wrap(caption, m).One? <==> |Clean(caption)| <= m)
    ensures Wrap(caption, m).Lines? ==> forall c :: c in Wrap(caption, m).lines ==> 1 <= |c| <= m
    ensures FirstIncluded(Clean(caption), SEPARATORS).None? && Wrap(caption, m).Lines? ==> Flatten(Wrap(caption, m).lines) == Clean(caption)
    ensures FirstIncluded(Clean(caption), SEPARATORS).Some? ==>
      var sep := SEPARATORS[FirstIncluded(Clean(caption), SEPARATORS).value];
      Wrap(caption, m).Lines?
      && Flatten(Wrap(caption, m).lines) == Flatten(Split(Clean(caption), sep))
      && Join(Split(Clean(caption), sep), sep) == Clean(caption)
  {
    var clean := Clean(caption);
    match FirstIncluded(clean, SEPARATORS)
    case Some(k) =>
      var sep := SEPARATORS[k];
      var parts := NonEmpty(Split(clean, sep));
      ChunkAllSpec(parts, m);
      NonEmptyFlatten(Split(clean, sep));
      JoinSplit(clean, sep);
    case None =>
      if |clean| > m {
        ChunksSpec(clean, m);
      }
  }

  /** A caption ending in ★ is wrapped from the caption with '*' in its place. */
  lemma StarBecomesAsterisk(caption: string)
    requires caption != [] && caption[|caption| - 1] == '★'
    ensures Clean(caption) == caption[..|caption| - 1] + "*"
  {
  }

  // ---------------------------------------------------------------- plotted values

  /** scales.map(s => scores[s.id]?.eval ?? dflt) */
  function Plotted(scales: seq<SubScale>, scores: map<string, SubScore>, dflt: int): (r: seq<int>)
    ensures |r| == |scales|
  {
    seq(|scales|, i requires 0 <= i < |scales| => if scales[i].id in scores then scores[scales[i].id].eval else dflt)
  }

  /** dataVals: the user's ratings, 3 where missing. */
  function DataVals(scales: seq<SubScale>, scores: map<string, SubScore>): seq<int> {
    Plotted(scales, scores, 3)
  }

  /** baseVals: the baseline's mean ratings in tenths, 3.0 (30 tenths) where missing; absent without a baseline. */
  function BaseVals(scales: seq<SubScale>, baseline: Option<map<string, SubScore>>): Option<seq<int>> {
    match baseline
    case Some(b) => Some(Plotted(scales, b, 30))
    case None => None
  }

  /** Each point is the scale's rating when the record holds one, and the default otherwise. */
  lemma PlottedSpec(scales: seq<SubScale>, scores: map<string, SubScore>, i: nat)
    requires i < |scales|
    ensures scales[i].id in scores ==> DataVals(scales, scores)[i] == scores[scales[i].id].eval
    ensures scales[i].id !in scores ==> DataVals(scales, scores)[i] == 3
    ensures BaseVals(scales, Some(scores)).Some? && |BaseVals(scales, Some(scores)).value| == |scales|
    ensures scales[i].id !in scores ==> BaseVals(scales, Some(scores)).value[i] == 30
    ensures BaseVals(scales, None).None?
  {
  }

  /** For the catalog and a user's computed scores the default is never used: every point is in 1..5. */
  lemma DataValsOfUser(responses: DomainScoring.Responses, g: Gender, i: nat)
    requires i < |SUBSCALES|
    ensures SUBSCALES[i].id in SubscaleScoresOf(responses, g)
    ensures DataVals(SUBSCALES, SubscaleScoresOf(responses, g))[i] == SubscaleScoresOf(responses, g)[SUBSCALES[i].id].eval
    ensures 1 <= DataVals(SUBSCALES, SubscaleScoresOf(responses, g))[i] <= 5
  {
    SubscaleScoresSpec(responses, g);
  }

  /** For the baseline of a non-empty group every point is a mean rating in 1.0..5.0. */
  lemma BaseValsOfGroup(users: seq<User>, agg: map<string, SubScore>, i: nat)
    requires AllScorable(users) && users != [] && i < |SUBSCALES|
    requires agg.Keys == IdSet() && forall id :: id in agg ==> agg[id] == Mean(users, id)
    ensures BaseVals(SUBSCALES, Some(agg)).value[i] == Mean(users, SUBSCALES[i].id).eval
    ensures 10 <= BaseVals(SUBSCALES, Some(agg)).value[i] <= 50
  {
    assert SUBSCALES[i].id in IdSet();
    MeanBounds(users, i);
  }
}
