// The investor profile page: the profile the backend classified (or a fixed
// moderate fallback when the request fails), the three profile scores with
// their bars, the behaviour metrics and the investment goals the user ticks.

module ProfilePage {
  import opened Common

  /** The profile response; a missing field is `None`. */
  datatype ProfileData = ProfileData(
    profile: Option<string>,
    confidence: Option<real>,
    scores: Option<map<string, real>>,
    metrics: Option<map<string, real>>,
    recommendations: seq<string>)

  /** The display labels of a profile, in French and Arabic. */
  datatype ProfileConfig = ProfileConfig(french: string, arabic: string)

  /** PROFILE_CONFIG; any other profile has no entry. */
  function Config(profile: string): (c: Option<ProfileConfig>)
    ensures c.Some? <==> profile in ProfileKeys
  {
    if profile == "conservative" then Some(ProfileConfig("Conservateur", "محافظ"))
    else if profile == "moderate" then Some(ProfileConfig("Modere", "معتدل"))
    else if profile == "aggressive" then Some(ProfileConfig("Agressif", "عدواني"))
    else None
  }

  /** The keys of PROFILE_CONFIG, in the order the score cards are drawn. */
  const ProfileKeys: seq<string> := ["conservative", "moderate", "aggressive"]

  /** The headline label: the Arabic one under the Arabic locale; nothing
      for a profile without a configuration. */
  function ProfileLabel(profile: string, locale: string): (r: Option<string>)
    ensures r.Some? <==> profile in ProfileKeys
    ensures r.Some? && locale == "ar" ==> r.value == Config(profile).value.arabic
    ensures r.Some? && locale != "ar" ==> r.value == Config(profile).value.french
  {
    match Config(profile)
    case None => None
    case Some(c) => Some(if locale == "ar" then c.arabic else c.french)
  }

  /** The keys of GOALS. */
  const GoalKeys: seq<string> := ["growth", "income", "preservation"]

  /** The goals selected when the page opens. */
  const InitialGoals: seq<string> := ["growth"]

  /** The profile installed when the request fails. */
  const FallbackProfile: ProfileData := ProfileData(
    Some("moderate"), Some(0.72),
    Some(map["aggressive" := 0.35, "conservative" := 0.25]),
    Some(map["trade_frequency_per_week" := 3.2, "avg_hold_days" := 8.5,
             "loss_tolerance_pct" := 8.2, "volatility_preference" := 0.42,
             "alert_sensitivity" := 0.6, "simulation_risk_score" := 0.55]),
    ["Diversifier entre secteurs defensifs et cycliques",
     "Equilibrer entre croissance et revenus",
     "Surveiller les opportunites sur les mid-caps"])

  /** currentProfile: the profile's name, or 'moderate' when there is no
      data or the name is missing or empty. */
  function CurrentProfile(data: Option<ProfileData>): (r: string)
    ensures r != ""
    ensures data.Some? && data.value.profile.Some? && data.value.profile.value != "" ==> r == data.value.profile.value
    ensures data.None? || data.value.profile.None? || data.value.profile.value == "" ==> r == "moderate"
  {
    if data.Some? && data.value.profile.Some? && data.value.profile.value != "" then data.value.profile.value
    else "moderate"
  }

  /** The confidence shown, `confidence || 0.5`: 0.5 when it is missing or
      0. */
  function Confidence(data: Option<ProfileData>): (r: real)
    ensures r != 0.0
    ensures data.Some? && data.value.confidence.Some? && data.value.confidence.value != 0.0 ==> r == data.value.confidence.value
    ensures data.None? || data.value.confidence.None? || data.value.confidence.value == 0.0 ==> r == 0.5
  {
    if data.Some? && data.value.confidence.Some? && data.value.confidence.value != 0.0 then data.value.confidence.value
    else 0.5
  }

  /** `scores?.[key] || 0`. */
  function RawScore(data: Option<ProfileData>, key: string): (r: real)
    ensures (data.Some? && data.value.scores.Some? && key in data.value.scores.value) ==> r == data.value.scores.value[key]
    ensures !(data.Some? && data.value.scores.Some? && key in data.value.scores.value) ==> r == 0.0
  {
    if data.Some? && data.value.scores.Some? && key in data.value.scores.value then data.value.scores.value[key] else 0.0
  }

  /** A profile card's score: the moderate one is what the aggressive and
      conservative scores leave of 1, the others are read from the scores. */
  function Score(data: Option<ProfileData>, key: string): (r: real)
    ensures key != "moderate" ==> r == RawScore(data, key)
  {
    if key == "moderate" then 1.0 - RawScore(data, "aggressive") - RawScore(data, "conservative")
    else RawScore(data, key)
  }

  /** The three cards' scores always add up to 1, whatever the response. */
  lemma ScoresSumToOne(data: Option<ProfileData>)
    ensures Score(data, "conservative") + Score(data, "moderate") + Score(data, "aggressive") == 1.0
  {
  }

  /** With aggressive and conservative scores in [0, 1] adding up to at most
      1, the moderate score is in [0, 1] too. */
  lemma ModerateScoreBounds(data: Option<ProfileData>)
    requires 0.0 <= RawScore(data, "aggressive") && 0.0 <= RawScore(data, "conservative")
    requires RawScore(data, "aggressive") + RawScore(data, "conservative") <= 1.0
    ensures 0.0 <= Score(data, "moderate") <= 1.0
  {
  }

  /** The width of a score bar in percent: the score in percent, but at
      least 5. */
  function BarWidth(score: real): (w: real)
    ensures w >= 5.0 && w >= score * 100.0
    ensures w == 5.0 || w == score * 100.0
  {
    Max(score * 100.0, 5.0)
  }

  /** `metrics[key] || 0`. */
  function MetricValue(data: Option<ProfileData>, key: string): (r: real)
    ensures (data.Some? && data.value.metrics.Some? && key in data.value.metrics.value) ==> r == data.value.metrics.value[key]
    ensures !(data.Some? && data.value.metrics.Some? && key in data.value.metrics.value) ==> r == 0.0
  {
    if data.Some? && data.value.metrics.Some? && key in data.value.metrics.value then data.value.metrics.value[key] else 0.0
  }

  /** MetricBar's percentage: the value in percent, but at most 100. */
  function MetricPercent(value: real): (p: real)
    ensures p <= 100.0 && p <= value * 100.0
    ensures p == 100.0 || p == value * 100.0
  {
    Min(value * 100.0, 100.0)
  }

  /** The fallback classifies the user as moderate with confidence 0.72,
      leaving 0.4 to the moderate card. */
  lemma FallbackShown()
    ensures CurrentProfile(Some(FallbackProfile)) == "moderate"
    ensures Confidence(Some(FallbackProfile)) == 0.72
    ensures Score(Some(FallbackProfile), "moderate") == 0.4
    ensures MetricValue(Some(FallbackProfile), "volatility_preference") == 0.42
    ensures ProfileLabel(CurrentProfile(Some(FallbackProfile)), "fr") == Some("Modere")
  {
  }

  /** No value occurs twice. */
  predicate NoDuplicates(s: seq<string>)
  {
    forall i, j :: 0 <= i < j < |s| ==> s[i] != s[j]
  }

  /** toggleGoal: a selected goal is removed, any other appended. */
  function Toggled(goals: seq<string>, key: string): (r: seq<string>)
    ensures key in r <==> key !in goals
    ensures forall g :: g != key ==> (g in r <==> g in goals)
  {
    if key in goals then Filter(goals, (g: string) => g != key) else goals + [key]
  }

  /** Removing the values equal to `key` keeps a list free of duplicates. */
  lemma {:induction false} FilterKeepsNoDuplicates(s: seq<string>, key: string)
    requires NoDuplicates(s)
    ensures NoDuplicates(Filter(s, (g: string) => g != key))
  {
    if |s| > 0 {
      var front := s[..|s| - 1];
      assert NoDuplicates(front);
      FilterKeepsNoDuplicates(front, key);
      var x := s[|s| - 1];
      assert x !in front;
      assert x !in Filter(front, (g: string) => g != key);
    }
  }

  /** Toggling keeps the selection free of duplicates. */
  lemma ToggleKeepsNoDuplicates(goals: seq<string>, key: string)
    requires NoDuplicates(goals)
    ensures NoDuplicates(Toggled(goals, key))
  {
    if key in goals {
      FilterKeepsNoDuplicates(goals, key);
    }
  }

  /** Toggling the same goal twice: an unselected goal is added and removed
      again, giving back the very same list; a selected one ends up at the
      end, so the same goals stay selected. */
  lemma {:induction false} ToggleTwice(goals: seq<string>, key: string)
    ensures key !in goals ==> Toggled(Toggled(goals, key), key) == goals
    ensures forall g :: g in Toggled(Toggled(goals, key), key) <==> g in goals
  {
    if key !in goals {
      var t := goals + [key];
      assert t[..|t| - 1] == goals;
      FilterAll(goals, (g: string) => g != key);
    }
  }

  /** The page's state. */
  class ProfileView {
    var profileData: Option<ProfileData>
    var loading: bool
    var selectedGoals: seq<string>

    constructor()
      ensures profileData.None? && loading && selectedGoals == InitialGoals
    {
      profileData := None;
      loading := true;
      selectedGoals := InitialGoals;
    }

    /** The selection never holds a goal twice. */
    predicate Valid()
      reads this
    {
      NoDuplicates(selectedGoals)
    }

    /** fetchProfile: the response, or the fallback profile when the request
        fails; loading ends either way. */
    method FetchProfile(response: Result<ProfileData, string>)
      modifies this`profileData, this`loading
      ensures profileData == Some(if response.Ok? then response.value else FallbackProfile)
      ensures !loading
      ensures response.Err? ==> CurrentProfile(profileData) == "moderate" && Confidence(profileData) == 0.72
    {
      loading := true;
      match response {
        case Ok(data) => profileData := Some(data);
        case Err(_) => profileData := Some(FallbackProfile);
      }
      loading := false;
    }

    /** toggleGoal. */
    method ToggleGoal(key: string)
      requires Valid()
      modifies this`selectedGoals
      ensures selectedGoals == Toggled(old(selectedGoals), key)
      ensures Valid()
    {
      ToggleKeepsNoDuplicates(selectedGoals, key);
      selectedGoals := Toggled(selectedGoals, key);
    }
  }
}
