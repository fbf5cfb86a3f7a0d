/** The ad placement configuration of `src/models/ad_config.py`: the eight known ad positions,
    the stored configuration (per-position ad code, timing and display settings), its updates,
    the CPM summary and the rule-based optimisation advice. The persisted configuration is the
    `config` field of an `AdConfigManager` object. */
module AdConfiguration {
  import opened Common

  datatype PositionInfo = PositionInfo(name: string, sizes: seq<string>, description: string)

  /** The configuration stored for one position. */
  datatype PositionConfig = PositionConfig(network: string, code: string, enabled: bool, positionInfo: PositionInfo)

  /** Delays in milliseconds. */
  datatype Timing = Timing(popupDelay: int, interstitialDelay: int, stepWaitTime: int)

  datatype Settings = Settings(
    showPopup: bool,
    showInterstitial: bool,
    showPopunder: bool,
    enableAdBlockDetection: bool,
    minimumViewTime: int)

  datatype AdConfig = AdConfig(enabled: bool, positions: map<string, PositionConfig>, timing: Timing, settings: Settings)

  /** `AD_POSITIONS`: the positions an ad code may be assigned to. */
  const AdPositions: map<string, PositionInfo> := map[
    "top_banner" := PositionInfo("Üst Banner", ["970x90", "728x90", "320x50"], "Sayfa üstü banner reklam alanı"),
    "sidebar_left" := PositionInfo("Sol Yan Banner", ["300x600", "160x600", "300x250"], "Sol yan reklam alanı (sadece desktop)"),
    "sidebar_right" := PositionInfo("Sağ Yan Banner", ["300x600", "160x600", "300x250"], "Sağ yan reklam alanı (sadece desktop)"),
    "content_inline" := PositionInfo("İçerik Arası", ["728x90", "300x250", "320x50"], "İçerik arası reklam alanı"),
    "sticky_footer" := PositionInfo("Sticky Footer", ["970x90", "728x90", "320x50"], "Sabit alt banner reklam"),
    "popup_overlay" := PositionInfo("Popup/Modal", ["600x400", "500x300"], "Popup overlay reklam"),
    "interstitial" := PositionInfo("Tam Sayfa (Interstitial)", ["800x600", "1024x768"], "Tam sayfa geçiş reklam"),
    "popunder" := PositionInfo("Popunder", ["Tam Sayfa"], "Arka plan popup reklam")
  ]

  /** The wait per gate step (in milliseconds) from which timing counts as optimised. */
  const OptimizedStepWait: int := 15000

  /** The configuration `get_ad_config` answers when none is stored. */
  const DefaultConfig: AdConfig :=
    AdConfig(true, map[], Timing(5000, 8000, 15000), Settings(true, true, true, true, 15))

  /** Every configured position is one of the known ones. */
  predicate KnownPositions(c: AdConfig) {
    c.positions.Keys <= AdPositions.Keys
  }

  /** The positions whose ad is switched on. */
  function EnabledPositions(positions: map<string, PositionConfig>): set<string> {
    set p | p in positions && positions[p].enabled
  }

  /** The number of enabled positions (`len([p for p in positions.values() if p['enabled']])`). */
  function ActiveCount(positions: map<string, PositionConfig>): (n: nat)
    ensures n <= |positions|
    ensures n == 0 <==> forall p :: p in positions ==> !positions[p].enabled
  {
    var s := EnabledPositions(positions);
    SubsetCard(s, positions.Keys);
    assert forall p :: p in positions && positions[p].enabled ==> p in s;
    |s|
  }

  lemma {:induction false} SubsetCard<T>(a: set<T>, b: set<T>)
    requires a <= b
    ensures |a| <= |b|
    decreases |b|
  {
    if a != {} {
      var x :| x in a;
      SubsetCard(a - {x}, b - {x});
    }
  }

  lemma AdPositionsCount()
    ensures |AdPositions.Keys| == 8
  {
    PositionNamesAreKeys();
    EightPositionNames();
  }

  /** The names of the eight positions. */
  const PositionNames: set<string> := {"top_banner", "sidebar_left", "sidebar_right", "content_inline",
                                       "sticky_footer", "popup_overlay", "interstitial", "popunder"}

  lemma PositionNamesAreKeys()
    ensures AdPositions.Keys == PositionNames
  {
  }

  /** The eight names are distinct: they differ in their length or in their second letter. */
  lemma EightPositionNames()
    ensures |PositionNames| == 8
  {
    assert "sticky_footer"[1] != "sidebar_right"[1];
    assert "popup_overlay"[1] != "sidebar_right"[1] && "popup_overlay"[1] != "sticky_footer"[1];
    assert "interstitial"[1] != "sidebar_left"[1];
  }

  /** With only known positions configured, at most eight can be enabled. */
  lemma ActiveCountAtMostEight(c: AdConfig)
    ensures KnownPositions(c) ==> ActiveCount(c.positions) <= 8
  {
    if KnownPositions(c) {
      AdPositionsCount();
      SubsetCard(c.positions.Keys, AdPositions.Keys);
    }
  }

  /** `get_ad_code`: the code of a position that is configured and enabled. */
  function AdCode(c: AdConfig, position: string): (r: Option<string>)
    ensures r.Some? <==> position in EnabledPositions(c.positions)
    ensures r.Some? ==> r.value == c.positions[position].code
  {
    if position in c.positions && c.positions[position].enabled then Some(c.positions[position].code) else None
  }

  datatype CpmSettings = CpmSettings(totalAdPositions: nat, timingOptimized: bool, popupEnabled: bool, interstitialEnabled: bool)

  /** `get_cpm_settings` without the estimated multiplier. */
  function CpmSettingsOf(c: AdConfig): (s: CpmSettings)
    ensures s.totalAdPositions <= |c.positions|
    ensures KnownPositions(c) ==> s.totalAdPositions <= 8
    ensures s.totalAdPositions == |EnabledPositions(c.positions)|
    ensures s.timingOptimized <==> c.timing.stepWaitTime >= OptimizedStepWait
    ensures s.popupEnabled == c.settings.showPopup && s.interstitialEnabled == c.settings.showInterstitial
  {
    ActiveCountAtMostEight(c);
    CpmSettings(ActiveCount(c.positions), c.timing.stepWaitTime >= OptimizedStepWait, c.settings.showPopup, c.settings.showInterstitial)
  }

  /** The leading icons of the five pieces of advice, which tell them apart. */
  const AdviceIcons: seq<char> := ['⚡', '💰', '🎯', '⏰', '📊']

  /** The five pieces of advice, in the order they are emitted: an icon, a space, the text. */
  const Advice: seq<string> := [
    [AdviceIcons[0]] + " Daha fazla reklam konumu ekleyerek CPM'i artırabilirsiniz",
    [AdviceIcons[1]] + " Popup reklamları aktifleştirerek %30 daha fazla gelir elde edebilirsiniz",
    [AdviceIcons[2]] + " Interstitial reklamlar CPM'i %40 artırabilir",
    [AdviceIcons[3]] + " Bekleme süresini 15 saniyeye çıkararak reklam görünürlüğünü artırın",
    [AdviceIcons[4]] + " Sol yan banner ekleyerek desktop kullanıcılardan daha fazla gelir alın"
  ]

  /** Whether advice `k` applies to configuration `c`. */
  predicate Wanted(c: AdConfig, k: int) {
    if k == 0 then ActiveCount(c.positions) < 3
    else if k == 1 then !c.settings.showPopup
    else if k == 2 then !c.settings.showInterstitial
    else if k == 3 then c.timing.stepWaitTime < OptimizedStepWait
    else if k == 4 then "sidebar_left" !in c.positions || !c.positions["sidebar_left"].enabled
    else false
  }

  /** The position of a piece of advice in `Advice`, read off its leading icon (5 for any
      other text). */
  function Rank(m: string): int {
    if m == [] then 5
    else if m[0] == AdviceIcons[0] then 0
    else if m[0] == AdviceIcons[1] then 1
    else if m[0] == AdviceIcons[2] then 2
    else if m[0] == AdviceIcons[3] then 3
    else if m[0] == AdviceIcons[4] then 4
    else 5
  }

  lemma AdviceRanks()
    ensures forall k :: 0 <= k < |Advice| ==> Rank(Advice[k]) == k
  {
    assert forall k :: 0 <= k < |Advice| ==> Advice[k][0] == AdviceIcons[k];
  }

  /** `recs` is the advice for `c` among the first `t` rules, and `ks` the rules it came from:
      each applying rule once, in rule order, and nothing else. */
  predicate Tracks(c: AdConfig, recs: seq<string>, ks: seq<int>, t: int) {
    && 0 <= t <= |Advice|
    && |recs| == |ks|
    && (forall i :: 0 <= i < |ks| ==> 0 <= ks[i] < t && recs[i] == Advice[ks[i]])
    && (forall i, j :: 0 <= i < j < |ks| ==> ks[i] < ks[j])
    && (forall k :: 0 <= k < t ==> (k in ks <==> Wanted(c, k)))
  }

  /** Considering rule `t` next: appending its text exactly when it applies extends the advice. */
  lemma EmitStep(c: AdConfig, recs: seq<string>, ks: seq<int>, t: int)
    requires 0 <= t < |Advice| && Tracks(c, recs, ks, t)
    ensures Wanted(c, t) ==> Tracks(c, recs + [Advice[t]], ks + [t], t + 1)
    ensures !Wanted(c, t) ==> Tracks(c, recs, ks, t + 1)
  {
    assert t !in ks;
  }

  /** Once all rules were considered, the tracked list is the promised advice. */
  lemma {:induction false} TrackedAdvice(c: AdConfig, recs: seq<string>, ks: seq<int>)
    requires Tracks(c, recs, ks, |Advice|)
    ensures forall k :: 0 <= k < |Advice| ==> (Advice[k] in recs <==> Wanted(c, k))
    ensures forall i :: 0 <= i < |recs| ==> recs[i] in Advice
    ensures forall i, j :: 0 <= i < j < |recs| ==> Rank(recs[i]) < Rank(recs[j])
    ensures |recs| <= |Advice|
  {
    AdviceRanks();
    forall k | 0 <= k < |Advice| ensures Advice[k] in recs <==> Wanted(c, k) {
      if Wanted(c, k) {
        var i :| 0 <= i < |ks| && ks[i] == k;
        assert recs[i] == Advice[k];
      }
      if Advice[k] in recs {
        var i :| 0 <= i < |recs| && recs[i] == Advice[k];
        assert Rank(Advice[ks[i]]) == Rank(Advice[k]);
        assert ks[i] == k;
      }
    }
    DistinctBounded(ks, |Advice|);
  }

  /** A strictly increasing list of indices below `n` has at most `n` entries. */
  lemma {:induction false} DistinctBounded(ks: seq<int>, n: int)
    requires 0 <= n
    requires forall i :: 0 <= i < |ks| ==> 0 <= ks[i] < n
    requires forall i, j :: 0 <= i < j < |ks| ==> ks[i] < ks[j]
    ensures |ks| <= n
    decreases |ks|
  {
    if ks != [] {
      var last := ks[|ks| - 1];
      var prefix := ks[..|ks| - 1];
      assert forall i :: 0 <= i < |prefix| ==> prefix[i] == ks[i] < last;
      DistinctBounded(prefix, last);
    }
  }

  /** One rule of `_get_optimization_recommendations`: append its advice when its condition
      `applies`. */
  method Consider(c: AdConfig, recs: seq<string>, ghost ks: seq<int>, t: int, applies: bool)
    returns (recs': seq<string>, ghost ks': seq<int>)
    requires 0 <= t < |Advice| && Tracks(c, recs, ks, t) && applies == Wanted(c, t)
    ensures Tracks(c, recs', ks', t + 1)
    ensures recs' == if applies then recs + [Advice[t]] else recs
  {
    EmitStep(c, recs, ks, t);
    if applies {
      recs', ks' := recs + [Advice[t]], ks + [t];
    } else {
      recs', ks' := recs, ks;
    }
  }

  /** `_get_optimization_recommendations`: each piece of advice appears exactly when its rule
      applies, and they appear in the fixed order of `Advice`. */
  method OptimizationRecommendations(c: AdConfig) returns (recs: seq<string>)
    ensures forall k :: 0 <= k < |Advice| ==> (Advice[k] in recs <==> Wanted(c, k))
    ensures forall i :: 0 <= i < |recs| ==> recs[i] in Advice
    ensures forall i, j :: 0 <= i < j < |recs| ==> Rank(recs[i]) < Rank(recs[j])
    ensures |recs| <= |Advice|
  {
    recs := [];
    ghost var ks: seq<int> := [];
    recs, ks := Consider(c, recs, ks, 0, ActiveCount(c.positions) < 3);
    recs, ks := Consider(c, recs, ks, 1, !c.settings.showPopup);
    recs, ks := Consider(c, recs, ks, 2, !c.settings.showInterstitial);
    recs, ks := Consider(c, recs, ks, 3, c.timing.stepWaitTime < OptimizedStepWait);
    recs, ks := Consider(c, recs, ks, 4, "sidebar_left" !in c.positions || !c.positions["sidebar_left"].enabled);
    TrackedAdvice(c, recs, ks);
  }

  /** The configuration after `optimize_for_maximum_cpm`: every display flag on, the minimum view
      time 15 s and the default timing; positions and the ad-block setting are kept. */
  function Optimized(c: AdConfig): (r: AdConfig)
    ensures r.positions == c.positions && r.enabled == c.enabled
    ensures r.settings.enableAdBlockDetection == c.settings.enableAdBlockDetection
    ensures CpmSettingsOf(r).timingOptimized && CpmSettingsOf(r).popupEnabled && CpmSettingsOf(r).interstitialEnabled
    ensures !Wanted(r, 1) && !Wanted(r, 2) && !Wanted(r, 3)
    ensures Wanted(r, 0) == Wanted(c, 0) && Wanted(r, 4) == Wanted(c, 4)
    ensures r.settings.showPopunder && r.settings.minimumViewTime == 15
    ensures r.timing == DefaultConfig.timing
  {
    c.(settings := c.settings.(showPopup := true, showInterstitial := true, showPopunder := true, minimumViewTime := 15),
       timing := Timing(5000, 8000, 15000))
  }

  datatype SetOutcome = Saved | InvalidPosition(message: string)

  class AdConfigManager {
    /** The stored configuration (`data/ad_config.json`). */
    var config: AdConfig

    /** A manager over a store that holds no configuration yet. */
    constructor ()
      ensures config == DefaultConfig && KnownPositions(config)
    {
      config := DefaultConfig;
    }

    /** `set_ad_code`: an unknown position is refused (the `ValueError`) and nothing is saved;
        a known one gets the code, enabled, with its position info. */
    method SetAdCode(position: string, network: string, code: string) returns (r: SetOutcome)
      modifies this
      ensures r.InvalidPosition? <==> position !in AdPositions
      ensures r.InvalidPosition? ==> r.message == "Geçersiz pozisyon: " + position && config == old(config)
      ensures r.Saved? ==> config == old(config).(positions := old(config).positions[position := PositionConfig(network, code, true, AdPositions[position])])
      ensures r.Saved? ==> AdCode(config, position) == Some(code)
      ensures KnownPositions(old(config)) ==> KnownPositions(config)
    {
      if position !in AdPositions {
        return InvalidPosition("Geçersiz pozisyon: " + position);
      }
      var positions := config.positions[position := PositionConfig(network, code, true, AdPositions[position])];
      config := config.(positions := positions);
      r := Saved;
    }

    /** `toggle_position`: switches a configured position on or off; an absent position is
        left alone and nothing is saved. */
    method TogglePosition(position: string, enabled: bool)
      modifies this
      ensures position !in old(config).positions ==> config == old(config)
      ensures position in old(config).positions ==>
        config == old(config).(positions := old(config).positions[position := old(config).positions[position].(enabled := enabled)])
      ensures !enabled ==> AdCode(config, position).None?
      ensures KnownPositions(old(config)) ==> KnownPositions(config)
    {
      if position in config.positions {
        var p := config.positions[position];
        config := config.(positions := config.positions[position := p.(enabled := enabled)]);
      }
    }

    /** `update_timing_settings`: replaces exactly the delays that are given. */
    method UpdateTimingSettings(popupDelay: Option<int>, interstitialDelay: Option<int>, stepWait: Option<int>)
      modifies this
      ensures config == old(config).(timing := Timing(
        popupDelay.GetOr(old(config).timing.popupDelay),
        interstitialDelay.GetOr(old(config).timing.interstitialDelay),
        stepWait.GetOr(old(config).timing.stepWaitTime)))
    {
      if popupDelay.Some? {
        config := config.(timing := config.timing.(popupDelay := popupDelay.value));
      }
      if interstitialDelay.Some? {
        config := config.(timing := config.timing.(interstitialDelay := interstitialDelay.value));
      }
      if stepWait.Some? {
        config := config.(timing := config.timing.(stepWaitTime := stepWait.value));
      }
    }

    /** `optimize_for_maximum_cpm`. */
    method OptimizeForMaximumCpm() returns (message: string)
      modifies this
      ensures config == Optimized(old(config))
      ensures message == "✅ CPM maksimum optimizasyon ayarları uygulandı!"
    {
      config := config.(settings := config.settings.(showPopup := true, showInterstitial := true, showPopunder := true, minimumViewTime := 15));
      config := config.(timing := config.timing.(popupDelay := 5000, interstitialDelay := 8000, stepWaitTime := 15000));
      message := "✅ CPM maksimum optimizasyon ayarları uygulandı!";
    }
  }
}
