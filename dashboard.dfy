/**
 * The per-user view of ScoreDashboard.tsx: which user is shown, and the
 * detail record built from that user's subscale scores (label without its
 * trailing ★, reverse flag, raw and eval with 0 for a missing entry). The
 * baseline over all users is SubscaleAggregate.AggregateScores.
 */
module Dashboard {
  import opened Wrappers
  import opened SubscaleMeta
  import opened EvaluationConversion
  import opened SubscaleScoring
  import opened Users
  import opened JsString

  /** users.find(u => u.id === selectedId), as an index. */
  function FindUser(users: seq<User>, id: string): (r: Option<nat>)
    ensures r.Some? ==> r.value < |users| && users[r.value].id == id && forall j :: 0 <= j < r.value ==> users[j].id != id
    ensures r.None? ==> forall j :: 0 <= j < |users| ==> users[j].id != id
  {
    if users == [] then None
    else if users[0].id == id then Some(0)
    else match FindUser(users[1..], id)
      case None => None
      case Some(k) => Some(k + 1)
  }

  /** The selected user, falling back to users[0]; the source reads users[0] unguarded. */
  function SelectUser(users: seq<User>, selectedId: string): User
    requires users != []
  {
    match FindUser(users, selectedId)
    case Some(i) => users[i]
    case None => users[0]
  }

  /**
   * The shown user is the first one carrying the selected id, or users[0]
   * when no user does; the initial selection, users[0]'s id, shows users[0].
   */
  lemma SelectUserSpec(users: seq<User>, selectedId: string)
    requires users != []
    ensures (exists i :: 0 <= i < |users| && users[i].id == selectedId) ==>
      exists k :: 0 <= k < |users| && SelectUser(users, selectedId) == users[k] && users[k].id == selectedId
        && forall j :: 0 <= j < k ==> users[j].id != selectedId
    ensures (forall i :: 0 <= i < |users| ==> users[i].id != selectedId) ==> SelectUser(users, selectedId) == users[0]
    ensures SelectUser(users, users[0].id) == users[0]
  {
    match FindUser(users, selectedId)
    case Some(k) =>
      assert SelectUser(users, selectedId) == users[k];
    case None =>
  }

  /** label.replace(/★$/, ''): one trailing ★ removed. */
  function StripStar(caption: string): string {
    ReplaceTrailing(caption, '★', "")
  }

  /** The catalog's labels lose their ★ exactly for the reverse subscales, and then end without one. */
  lemma CatalogCaptions()
    ensures forall i :: 0 <= i < |SUBSCALES| ==>
      (SUBSCALES[i].reverse <==> StripStar(SUBSCALES[i].caption) != SUBSCALES[i].caption)
    ensures forall i :: 0 <= i < |SUBSCALES| ==>
      var c := StripStar(SUBSCALES[i].caption);
      c != [] && c[|c| - 1] != '★'
  {
    ReverseScales();
    forall i | 0 <= i < |SUBSCALES|
      ensures (SUBSCALES[i].reverse <==> StripStar(SUBSCALES[i].caption) != SUBSCALES[i].caption)
      ensures var c := StripStar(SUBSCALES[i].caption); c != [] && c[|c| - 1] != '★'
    {
      CatalogIndex(i);
    }
  }

  datatype Detail = Detail(caption: string, reverse: bool, raw: int, eval: int)

  /** The detail entry of scale s. */
  function DetailOf(s: SubScale, sub: map<string, SubScore>): Detail {
    Detail(StripStar(s.caption), s.reverse, RawOr0(sub, s.id), EvalOr0(sub, s.id))
  }

  /** The forEach filling the record, over any list of scales with distinct ids. */
  method BuildDetails(scales: seq<SubScale>, sub: map<string, SubScore>) returns (details: map<string, Detail>)
    requires DistinctIds(scales)
    ensures details.Keys == set j | 0 <= j < |scales| :: scales[j].id
    ensures forall j :: 0 <= j < |scales| ==> details[scales[j].id] == DetailOf(scales[j], sub)
  {
    details := map[];
    for k := 0 to |scales|
      invariant details.Keys == set j | 0 <= j < k :: scales[j].id
      invariant forall j :: 0 <= j < k ==> details[scales[j].id] == DetailOf(scales[j], sub)
    {
      var s := scales[k];
      var raw := if s.id in sub then sub[s.id].raw else 0;
      var eval := if s.id in sub then sub[s.id].eval else 0;
      details := details[s.id := Detail(StripStar(s.caption), s.reverse, raw, eval)];
    }
  }

  /** detailedSubscaleScores: one entry per catalog id. */
  method DetailedScores(sub: map<string, SubScore>) returns (details: map<string, Detail>)
    ensures details.Keys == IdSet()
    ensures forall i :: 0 <= i < |SUBSCALES| ==> details[SUBSCALES[i].id] == DetailOf(SUBSCALES[i], sub)
  {
    CatalogIdsDistinct();
    details := BuildDetails(SUBSCALES, sub);
  }

  /**
   * For the user's computed scores no default is used: each entry carries
   * the subscale's own raw and eval, the latter in 1..5.
   */
  lemma DetailsOfComputedScores(responses: DomainScoring.Responses, g: Gender, i: nat)
    requires i < |SUBSCALES|
    ensures SUBSCALES[i].id in SubscaleScoresOf(responses, g)
    ensures DetailOf(SUBSCALES[i], SubscaleScoresOf(responses, g)).raw == SubscaleScoresOf(responses, g)[SUBSCALES[i].id].raw
    ensures DetailOf(SUBSCALES[i], SubscaleScoresOf(responses, g)).eval == SubscaleScoresOf(responses, g)[SUBSCALES[i].id].eval
    ensures 1 <= DetailOf(SUBSCALES[i], SubscaleScoresOf(responses, g)).eval <= 5
  {
    SubscaleScoresSpec(responses, g);
  }
}
