/**
 * The device tables: iPod and iPhone models, their screen types, and the properties derived
 * from them. The screen metrics a simulator reports are parameters.
 */
module DeviceInfo {
  import opened Outcomes

  /** `DeviceModel`, in declaration order. */
  datatype DeviceModel =
    | IPodTouch5 | IPodTouch6 | IPodTouch7
    | IPhone4 | IPhone4s | IPhone5 | IPhone5c | IPhone5s | IPhone6 | IPhone6Plus | IPhone6s | IPhone6sPlus
    | IPhoneSE | IPhone7 | IPhone7Plus | IPhone8 | IPhone8Plus | IPhoneX | IPhoneXS | IPhoneXSMax | IPhoneXR
    | IPhone11 | IPhone11Pro | IPhone11ProMax | IPhoneSE2 | IPhone12mini | IPhone12 | IPhone12Pro | IPhone12ProMax
    | IPhone13mini | IPhone13 | IPhone13Pro | IPhone13ProMax | IPhoneSE3 | IPhone14 | IPhone14Plus | IPhone14Pro
    | IPhone14ProMax | IPhone15 | IPhone15Plus | IPhone15Pro | IPhone15ProMax
    | Simulator | Other

  /** `ScreenType`, in declaration order. */
  datatype ScreenType =
    | ScreenIPhone4 | ScreenIPhone5 | ScreenIPhone6 | ScreenIPhone6Plus | ScreenIPhone8Plus | ScreenIPhoneX
    | ScreenIPhoneXSMax | ScreenIPhoneXR | ScreenIPhone12mini | ScreenIPhone12 | ScreenIPhone12ProMax
    | ScreenIPhone14Pro | ScreenIPhone14ProMax | ScreenOther

  /** SwiftUI's `EdgeInsets`. */
  datatype EdgeInsets = EdgeInsets(top: real, leading: real, bottom: real, trailing: real)

  /** `DeviceModel.allCases` */
  const AllModels: seq<DeviceModel> :=
    [IPodTouch5, IPodTouch6, IPodTouch7,
     IPhone4, IPhone4s, IPhone5, IPhone5c, IPhone5s, IPhone6, IPhone6Plus, IPhone6s, IPhone6sPlus,
     IPhoneSE, IPhone7, IPhone7Plus, IPhone8, IPhone8Plus, IPhoneX, IPhoneXS, IPhoneXSMax, IPhoneXR,
     IPhone11, IPhone11Pro, IPhone11ProMax, IPhoneSE2, IPhone12mini, IPhone12, IPhone12Pro, IPhone12ProMax,
     IPhone13mini, IPhone13, IPhone13Pro, IPhone13ProMax, IPhoneSE3, IPhone14, IPhone14Plus, IPhone14Pro,
     IPhone14ProMax, IPhone15, IPhone15Plus, IPhone15Pro, IPhone15ProMax,
     Simulator, Other]

  /** `ScreenType.allCases` */
  const AllScreenTypes: seq<ScreenType> :=
    [ScreenIPhone4, ScreenIPhone5, ScreenIPhone6, ScreenIPhone6Plus, ScreenIPhone8Plus, ScreenIPhoneX,
     ScreenIPhoneXSMax, ScreenIPhoneXR, ScreenIPhone12mini, ScreenIPhone12, ScreenIPhone12ProMax,
     ScreenIPhone14Pro, ScreenIPhone14ProMax, ScreenOther]

  /** `DeviceModel.rawValue` */
  function RawValue(m: DeviceModel): string
  {
    match m
    case IPodTouch5 => "iPod touch (5th generation)"
    case IPodTouch6 => "iPod touch (6th generation)"
    case IPodTouch7 => "iPod touch (7th generation)"
    case IPhone4 => "iPhone 4"
    case IPhone4s => "iPhone 4s"
    case IPhone5 => "iPhone 5"
    case IPhone5c => "iPhone 5c"
    case IPhone5s => "iPhone 5s"
    case IPhone6 => "iPhone 6"
    case IPhone6Plus => "iPhone 6 Plus"
    case IPhone6s => "iPhone 6s"
    case IPhone6sPlus => "iPhone 6s Plus"
    case IPhoneSE => "iPhone SE (1st generation)"
    case IPhone7 => "iPhone 7"
    case IPhone7Plus => "iPhone 7 Plus"
    case IPhone8 => "iPhone 8"
    case IPhone8Plus => "iPhone 8 Plus"
    case IPhoneX => "iPhone X"
    case IPhoneXS => "iPhone XS"
    case IPhoneXSMax => "iPhone XS Max"
    case IPhoneXR => "iPhone XR"
    case IPhone11 => "iPhone 11"
    case IPhone11Pro => "iPhone 11 Pro"
    case IPhone11ProMax => "iPhone 11 Pro Max"
    case IPhoneSE2 => "iPhone SE (2nd generation)"
    case IPhone12mini => "iPhone 12 mini"
    case IPhone12 => "iPhone 12"
    case IPhone12Pro => "iPhone 12 Pro"
    case IPhone12ProMax => "iPhone 12 Pro Max"
    case IPhone13mini => "iPhone 13 mini"
    case IPhone13 => "iPhone 13"
    case IPhone13Pro => "iPhone 13 Pro"
    case IPhone13ProMax => "iPhone 13 Pro Max"
    case IPhoneSE3 => "iPhone SE (3rd generation)"
    case IPhone14 => "iPhone 14"
    case IPhone14Plus => "iPhone 14 Plus"
    case IPhone14Pro => "iPhone 14 Pro"
    case IPhone14ProMax => "iPhone 14 Pro Max"
    case IPhone15 => "iPhone 15"
    case IPhone15Plus => "iPhone 15 Plus"
    case IPhone15Pro => "iPhone 15 Pro"
    case IPhone15ProMax => "iPhone 15 Pro Max"
    case Simulator => "Simulator"
    case Other => "Other"
  }

  /** Whether `needle` occurs in `s` starting at index `i`. */
  predicate OccursAt(s: string, needle: string, i: int)
  {
    0 <= i && i + |needle| <= |s| && s[i..i + |needle|] == needle
  }

  /** `String.contains` */
  predicate Contains(s: string, needle: string)
  {
    exists i | 0 <= i <= |s| - |needle| :: OccursAt(s, needle, i)
  }

  /** `ScreenType.iPhone5OrSmaller` */
  predicate IPhone5OrSmaller(s: ScreenType)
  {
    s == ScreenIPhone4 || s == ScreenIPhone5
  }

  /** `ScreenType.cornerRadius` */
  function CornerRadius(s: ScreenType): (r: real)
    ensures r >= 0.0
    ensures r == 0.0 <==> s in {ScreenIPhone4, ScreenIPhone5, ScreenIPhone6, ScreenIPhone6Plus, ScreenIPhone8Plus, ScreenOther}
  {
    match s
    case ScreenIPhoneX | ScreenIPhoneXSMax => 39.0
    case ScreenIPhoneXR => 41.5
    case ScreenIPhone12mini => 43.0
    case ScreenIPhone12 => 47.33
    case ScreenIPhone12ProMax => 53.33
    case ScreenIPhone14Pro => 55.0
    case ScreenIPhone14ProMax => 55.0
    case ScreenIPhone4 | ScreenIPhone5 | ScreenIPhone6 | ScreenIPhone6Plus | ScreenIPhone8Plus | ScreenOther => 0.0
  }

  /** `ScreenType.logicalSize`, in points. */
  function LogicalSize(s: ScreenType): (size: Option<(real, real)>)
    ensures size.None? <==> s == ScreenOther
    ensures size.Some? ==> 320.0 <= size.value.0 < size.value.1
  {
    match s
    case ScreenIPhone4 => Some((320.0, 480.0))
    case ScreenIPhone5 => Some((320.0, 568.0))
    case ScreenIPhone6 => Some((375.0, 667.0))
    case ScreenIPhone6Plus => Some((476.0, 847.0))
    case ScreenIPhone8Plus => Some((414.0, 736.0))
    case ScreenIPhoneX => Some((375.0, 812.0))
    case ScreenIPhoneXSMax => Some((414.0, 896.0))
    case ScreenIPhoneXR => Some((414.0, 896.0))
    case ScreenIPhone12mini => Some((375.0, 812.0))
    case ScreenIPhone12 => Some((390.0, 844.0))
    case ScreenIPhone12ProMax => Some((428.0, 926.0))
    case ScreenIPhone14Pro => Some((393.0, 852.0))
    case ScreenIPhone14ProMax => Some((430.0, 932.0))
    case ScreenOther => None
  }

  /** `ScreenType.scalingFactor` */
  function ScalingFactor(s: ScreenType): (scale: Option<real>)
    ensures scale.None? <==> s == ScreenOther
    ensures scale.Some? ==> scale.value == 2.0 || scale.value == 3.0
    ensures scale == Some(2.0) <==> s in {ScreenIPhone4, ScreenIPhone5, ScreenIPhone6, ScreenIPhoneXR}
  {
    match s
    case ScreenIPhone4 => Some(2.0)
    case ScreenIPhone5 => Some(2.0)
    case ScreenIPhone6 => Some(2.0)
    case ScreenIPhone6Plus => Some(3.0)
    case ScreenIPhone8Plus => Some(3.0)
    case ScreenIPhoneX => Some(3.0)
    case ScreenIPhoneXSMax => Some(3.0)
    case ScreenIPhoneXR => Some(2.0)
    case ScreenIPhone12mini => Some(3.0)
    case ScreenIPhone12 => Some(3.0)
    case ScreenIPhone12ProMax => Some(3.0)
    case ScreenIPhone14Pro => Some(3.0)
    case ScreenIPhone14ProMax => Some(3.0)
    case ScreenOther => None
  }

  /** `ScreenType.safeAreaInsets`: a notch or island at the top and a home indicator at the
      bottom exactly on the screens with rounded corners. */
  function SafeAreaInsets(s: ScreenType): (insets: EdgeInsets)
    ensures insets.leading == 0.0 && insets.trailing == 0.0
    ensures CornerRadius(s) > 0.0 ==> insets.top >= 44.0 && insets.bottom == 34.0
    ensures CornerRadius(s) == 0.0 ==> insets == EdgeInsets(0.0, 0.0, 0.0, 0.0)
  {
    match s
    case ScreenIPhoneX => EdgeInsets(44.0, 0.0, 34.0, 0.0)
    case ScreenIPhoneXSMax => EdgeInsets(44.0, 0.0, 34.0, 0.0)
    case ScreenIPhoneXR => EdgeInsets(48.0, 0.0, 34.0, 0.0)
    case ScreenIPhone12mini => EdgeInsets(50.0, 0.0, 34.0, 0.0)
    case ScreenIPhone12 => EdgeInsets(47.0, 0.0, 34.0, 0.0)
    case ScreenIPhone12ProMax => EdgeInsets(47.0, 0.0, 34.0, 0.0)
    case ScreenIPhone14Pro => EdgeInsets(59.0, 0.0, 34.0, 0.0)
    case ScreenIPhone14ProMax => EdgeInsets(59.0, 0.0, 34.0, 0.0)
    case ScreenIPhone4 | ScreenIPhone5 | ScreenIPhone6 | ScreenIPhone6Plus | ScreenIPhone8Plus | ScreenOther =>
      EdgeInsets(0.0, 0.0, 0.0, 0.0)
  }

  /** `DeviceModel.screenType` */
  function ScreenTypeOf(m: DeviceModel): (s: ScreenType)
    ensures s == ScreenOther <==> m == Simulator || m == Other
  {
    match m
    case IPhone4 | IPhone4s => ScreenIPhone4
    case IPodTouch5 | IPodTouch6 | IPodTouch7 | IPhone5 | IPhone5s | IPhone5c | IPhoneSE => ScreenIPhone5
    case IPhone6 | IPhone6s | IPhone7 | IPhone8 | IPhoneSE2 | IPhoneSE3 => ScreenIPhone6
    case IPhone6Plus | IPhone6sPlus | IPhone7Plus => ScreenIPhone6Plus
    case IPhone8Plus => ScreenIPhone8Plus
    case IPhoneX | IPhoneXS | IPhone11Pro => ScreenIPhoneX
    case IPhoneXSMax | IPhone11ProMax => ScreenIPhoneXSMax
    case IPhoneXR | IPhone11 => ScreenIPhoneXR
    case IPhone12mini | IPhone13mini => ScreenIPhone12mini
    case IPhone12 | IPhone12Pro | IPhone13 | IPhone13Pro | IPhone14 => ScreenIPhone12
    case IPhone14Pro | IPhone15 | IPhone15Pro => ScreenIPhone14Pro
    case IPhone12ProMax | IPhone13ProMax | IPhone14Plus => ScreenIPhone12ProMax
    case IPhone14ProMax | IPhone15Plus | IPhone15ProMax => ScreenIPhone14ProMax
    case Simulator | Other => ScreenOther
  }

  /** `DeviceModel.hasHomeButton`: on every real model, exactly the ones whose screen has
      square corners. */
  predicate HasHomeButton(m: DeviceModel)
    ensures m != Simulator && m != Other ==> (HasHomeButton(m) <==> CornerRadius(ScreenTypeOf(m)) == 0.0)
  {
    m in {IPodTouch5, IPodTouch6, IPodTouch7, IPhone4, IPhone4s, IPhone5, IPhone5s, IPhone5c, IPhone6,
          IPhone6Plus, IPhone6s, IPhone6sPlus, IPhoneSE, IPhone7, IPhone7Plus, IPhone8, IPhone8Plus,
          IPhoneSE2, IPhoneSE3}
  }

  /** `DeviceModel.supportsHaptics` */
  predicate SupportsHaptics(m: DeviceModel)
    ensures SupportsHaptics(m) ==> m != Simulator && m != Other && ScreenTypeOf(m) != ScreenIPhone4
  {
    !(m in {IPodTouch5, IPodTouch6, IPodTouch7, IPhone4, IPhone4s, IPhone5, IPhone5c, IPhone5s, IPhone6,
            IPhone6Plus, IPhone6s, IPhone6sPlus, IPhoneSE, Simulator, Other})
  }

  /** `DeviceModel.hasLimitedPerformance`: limited devices have no haptics and a home button. */
  predicate HasLimitedPerformance(m: DeviceModel)
    ensures HasLimitedPerformance(m) ==> !SupportsHaptics(m) && HasHomeButton(m)
  {
    m in {IPodTouch5, IPodTouch6, IPodTouch7, IPhone4, IPhone4s, IPhone5, IPhone5s, IPhone5c, IPhone6,
          IPhone6Plus, IPhone6s, IPhone6sPlus, IPhoneSE}
  }

  /** `DeviceModel.isOldDevice`: every old device has limited performance. */
  predicate IsOldDevice(m: DeviceModel)
    ensures IsOldDevice(m) ==> HasLimitedPerformance(m)
  {
    m in {IPodTouch5, IPodTouch6, IPodTouch7, IPhone4, IPhone4s, IPhone5, IPhone5s, IPhone5c, IPhone6,
          IPhone6Plus, IPhoneSE}
  }

  /** `DeviceModel.supportsProMotion`: only the Pro phones with a rounded screen. */
  predicate SupportsProMotion(m: DeviceModel)
    ensures SupportsProMotion(m) ==> !HasHomeButton(m) && CornerRadius(ScreenTypeOf(m)) > 0.0
  {
    m in {IPhone13Pro, IPhone13ProMax, IPhone14Pro, IPhone14ProMax, IPhone15Pro, IPhone15ProMax}
  }

  /** `DeviceModel.isExpensiveDevice`: the raw value mentions "Pro". */
  predicate IsExpensiveDevice(m: DeviceModel)
  {
    Contains(RawValue(m), "Pro")
  }

  /** Every ProMotion device is an expensive one. */
  lemma ProMotionIsExpensive(m: DeviceModel)
    requires SupportsProMotion(m)
    ensures IsExpensiveDevice(m)
  {
    var raw := RawValue(m);
    assert raw[10..13] == "Pro";
    assert OccursAt(raw, "Pro", 10);
  }

  /** `DeviceModel.hasSuperRetinaDisplay`: a scaling factor of 3. */
  predicate HasSuperRetinaDisplay(m: DeviceModel)
    ensures HasSuperRetinaDisplay(m) ==> m != Simulator && m != Other
  {
    ScalingFactor(ScreenTypeOf(m)) == Some(3.0)
  }

  /** `DeviceModel.hasSmallScreen`; a simulator asks its screen, whose width is a parameter. */
  predicate HasSmallScreen(m: DeviceModel, simulatorScreenWidth: real)
    ensures m != Simulator ==> (HasSmallScreen(m, simulatorScreenWidth) <==> IPhone5OrSmaller(ScreenTypeOf(m)))
    ensures m != Simulator && HasSmallScreen(m, simulatorScreenWidth) ==> LogicalSize(ScreenTypeOf(m)).value.0 == 320.0
  {
    if m == Simulator then simulatorScreenWidth == 320.0
    else ScreenTypeOf(m) == ScreenIPhone4 || ScreenTypeOf(m) == ScreenIPhone5
  }

  /** `DeviceModel.screenCornerRadius` */
  function ScreenCornerRadius(m: DeviceModel): (r: real)
    ensures r >= 0.0
    ensures m != Simulator && m != Other ==> (r == 0.0 <==> HasHomeButton(m))
  {
    CornerRadius(ScreenTypeOf(m))
  }

  // ----- The simulator lookup -----

  /** Whether screen type `s` has the given width, height and scale. */
  predicate Matches(s: ScreenType, width: real, height: real, scale: real)
  {
    LogicalSize(s).Some? && ScalingFactor(s).Some?
    && LogicalSize(s).value == (width, height) && ScalingFactor(s).value == scale
  }

  /** The inner loop of `simulatorDeviceModel`: the index of the first model from `from` on
      whose screen type is `s`, or `|models|` when there is none. */
  function FirstModelIndex(models: seq<DeviceModel>, s: ScreenType, from: nat): (k: nat)
    requires from <= |models|
    ensures from <= k <= |models|
    ensures k < |models| ==> ScreenTypeOf(models[k]) == s
    decreases |models| - from
  {
    if from == |models| then from
    else if ScreenTypeOf(models[from]) == s then from
    else FirstModelIndex(models, s, from + 1)
  }

  /** No model the search passes over has screen type `s`. */
  lemma {:induction false} FirstModelIndexIsFirst(models: seq<DeviceModel>, s: ScreenType, from: nat, j: nat)
    requires from <= j && from <= |models| && j < FirstModelIndex(models, s, from)
    ensures ScreenTypeOf(models[j]) != s
    decreases |models| - from
  {
    if j > from {
      FirstModelIndexIsFirst(models, s, from + 1, j);
    }
  }

  /** Whether the outer loop of `simulatorDeviceModel` returns at screen type `s`: its metrics
      match and some model in `models` has that screen. */
  predicate Selects(models: seq<DeviceModel>, s: ScreenType, width: real, height: real, scale: real)
  {
    Matches(s, width, height, scale) && FirstModelIndex(models, s, 0) < |models|
  }

  /** The position of `s` in `ScreenType.allCases`. */
  function ScreenIndex(s: ScreenType): (k: nat)
    ensures k < |AllScreenTypes| && AllScreenTypes[k] == s
  {
    match s
    case ScreenIPhone4 => 0 case ScreenIPhone5 => 1 case ScreenIPhone6 => 2 case ScreenIPhone6Plus => 3
    case ScreenIPhone8Plus => 4 case ScreenIPhoneX => 5 case ScreenIPhoneXSMax => 6 case ScreenIPhoneXR => 7
    case ScreenIPhone12mini => 8 case ScreenIPhone12 => 9 case ScreenIPhone12ProMax => 10
    case ScreenIPhone14Pro => 11 case ScreenIPhone14ProMax => 12 case ScreenOther => 13
  }

  /** The outer loop of `simulatorDeviceModel` from screen type number `from` on, searching
      `models` for each screen type. */
  function SimulatorModelFrom(models: seq<DeviceModel>, from: nat, width: real, height: real, scale: real)
    : (m: DeviceModel)
    requires from <= |AllScreenTypes|
    ensures m == Simulator <==>
              forall k :: from <= k < |AllScreenTypes| ==> !Selects(models, AllScreenTypes[k], width, height, scale)
    ensures m != Simulator ==>
              && from <= ScreenIndex(ScreenTypeOf(m))
              && Selects(models, ScreenTypeOf(m), width, height, scale)
              && m == models[FirstModelIndex(models, ScreenTypeOf(m), 0)]
              && forall j :: from <= j < ScreenIndex(ScreenTypeOf(m)) ==>
                   !Selects(models, AllScreenTypes[j], width, height, scale)
    decreases |AllScreenTypes| - from
  {
    if from == |AllScreenTypes| then Simulator
    else
      var s := AllScreenTypes[from];
      if Selects(models, s, width, height, scale) then
        var k := FirstModelIndex(models, s, 0);
        assert ScreenTypeOf(models[k]) == s != ScreenOther;
        assert models[k] != Simulator;
        assert ScreenIndex(s) == from;
        models[k]
      else
        var m := SimulatorModelFrom(models, from + 1, width, height, scale);
        assert m == Simulator <==>
                 forall k :: from + 1 <= k < |AllScreenTypes| ==> !Selects(models, AllScreenTypes[k], width, height, scale);
        m
  }

  /** The outer loop run from the first screen type reports the simulator exactly when no
      screen type is selected. */
  lemma SimulatorFromStartIsSimulator(models: seq<DeviceModel>, width: real, height: real, scale: real)
    ensures SimulatorModelFrom(models, 0, width, height, scale) != Other
    ensures SimulatorModelFrom(models, 0, width, height, scale) == Simulator <==>
              forall s :: !Selects(models, s, width, height, scale)
  {
    var m := SimulatorModelFrom(models, 0, width, height, scale);
    if m == Simulator {
      forall s ensures !Selects(models, s, width, height, scale) {
        assert AllScreenTypes[ScreenIndex(s)] == s;
      }
    } else {
      assert Selects(models, ScreenTypeOf(m), width, height, scale);
    }
  }

  /** A model found from the first screen type has the earliest selected screen type and is the
      first model of that type. */
  lemma SimulatorFromStartIsFirst(models: seq<DeviceModel>, width: real, height: real, scale: real)
    requires SimulatorModelFrom(models, 0, width, height, scale) != Simulator
    ensures var m := SimulatorModelFrom(models, 0, width, height, scale);
            && Selects(models, ScreenTypeOf(m), width, height, scale)
            && m == models[FirstModelIndex(models, ScreenTypeOf(m), 0)]
            && (forall s :: ScreenIndex(s) < ScreenIndex(ScreenTypeOf(m)) ==> !Selects(models, s, width, height, scale))
            && (forall j :: 0 <= j < |models| && ScreenTypeOf(models[j]) == ScreenTypeOf(m) ==>
                  FirstModelIndex(models, ScreenTypeOf(m), 0) <= j)
  {
    var m := SimulatorModelFrom(models, 0, width, height, scale);
    forall s | ScreenIndex(s) < ScreenIndex(ScreenTypeOf(m)) ensures !Selects(models, s, width, height, scale) {
      assert AllScreenTypes[ScreenIndex(s)] == s;
    }
    forall j | 0 <= j < |models| && ScreenTypeOf(models[j]) == ScreenTypeOf(m)
      ensures FirstModelIndex(models, ScreenTypeOf(m), 0) <= j
    {
      if j < FirstModelIndex(models, ScreenTypeOf(m), 0) {
        FirstModelIndexIsFirst(models, ScreenTypeOf(m), 0, j);
        assert false;
      }
    }
  }

  /** `UIDevice.simulatorDeviceModel`, with the main screen's bounds and scale as parameters:
      the first model, in declaration order, of the first screen type with those metrics, or
      the simulator itself when no screen type has them. */
  function SimulatorDeviceModel(width: real, height: real, scale: real): (m: DeviceModel)
    ensures m != Other
    ensures m == Simulator <==> forall s :: !Selects(AllModels, s, width, height, scale)
    ensures m != Simulator ==>
              && Selects(AllModels, ScreenTypeOf(m), width, height, scale)
              && m == AllModels[FirstModelIndex(AllModels, ScreenTypeOf(m), 0)]
              && (forall s :: ScreenIndex(s) < ScreenIndex(ScreenTypeOf(m)) ==> !Selects(AllModels, s, width, height, scale))
              && (forall j :: 0 <= j < |AllModels| && ScreenTypeOf(AllModels[j]) == ScreenTypeOf(m) ==>
                    FirstModelIndex(AllModels, ScreenTypeOf(m), 0) <= j)
  {
    SimulatorFromStartIsSimulator(AllModels, width, height, scale);
    if SimulatorModelFrom(AllModels, 0, width, height, scale) != Simulator then
      SimulatorFromStartIsFirst(AllModels, width, height, scale);
      SimulatorModelFrom(AllModels, 0, width, height, scale)
    else Simulator
  }

  /** The search finds a model whenever one with the screen type lies ahead. */
  lemma {:induction false} FirstModelIndexFinds(models: seq<DeviceModel>, s: ScreenType, from: nat, j: nat)
    requires from <= j < |models| && ScreenTypeOf(models[j]) == s
    ensures FirstModelIndex(models, s, from) <= j
    decreases |models| - from
  {
    if from < j && ScreenTypeOf(models[from]) != s {
      FirstModelIndexFinds(models, s, from + 1, j);
    }
  }

  /** The search stops at `j` when the models between `from` and `j` all have other screens. */
  lemma {:induction false} FirstModelIndexAt(models: seq<DeviceModel>, s: ScreenType, from: nat, j: nat)
    requires from <= j < |models| && ScreenTypeOf(models[j]) == s
    requires forall i :: from <= i < j ==> ScreenTypeOf(models[i]) != s
    ensures FirstModelIndex(models, s, from) == j
    decreases j - from
  {
    if from < j {
      assert ScreenTypeOf(models[from]) != s;
      FirstModelIndexAt(models, s, from + 1, j);
    }
  }

  /** The iPhone X is the first model, in declaration order, with the iPhone X screen. */
  lemma FirstXScreenModel()
    ensures FirstModelIndex(AllModels, ScreenIPhoneX, 0) == 17 && AllModels[17] == IPhoneX
  {
    var before := AllModels[..17];
    assert before == [IPodTouch5, IPodTouch6, IPodTouch7,
                      IPhone4, IPhone4s, IPhone5, IPhone5c, IPhone5s, IPhone6, IPhone6Plus, IPhone6s, IPhone6sPlus,
                      IPhoneSE, IPhone7, IPhone7Plus, IPhone8, IPhone8Plus];
    forall i | 0 <= i < 17 ensures ScreenTypeOf(AllModels[i]) != ScreenIPhoneX {
      assert AllModels[i] == before[i];
    }
    FirstModelIndexAt(AllModels, ScreenIPhoneX, 0, 17);
  }

  /** The outer loop returns the first model of screen type `s` when `s` is selected and no
      earlier screen type is. */
  lemma SimulatorPicksScreen(models: seq<DeviceModel>, s: ScreenType, width: real, height: real, scale: real)
    requires Selects(models, s, width, height, scale)
    requires forall t :: ScreenIndex(t) < ScreenIndex(s) ==> !Matches(t, width, height, scale)
    ensures SimulatorModelFrom(models, 0, width, height, scale) == models[FirstModelIndex(models, s, 0)]
  {
    var m := SimulatorModelFrom(models, 0, width, height, scale);
    assert AllScreenTypes[ScreenIndex(s)] == s;
    assert m != Simulator;
    var t := ScreenTypeOf(m);
    assert ScreenIndex(t) <= ScreenIndex(s);
    assert ScreenIndex(t) >= ScreenIndex(s) by {
      assert Matches(t, width, height, scale);
    }
    assert t == AllScreenTypes[ScreenIndex(t)] == s;
  }

  /** A simulator with the 375×812 screen at scale 3 is taken for the iPhone X: that screen type
      comes before the iPhone 12 mini's, which has the same metrics, and the iPhone X is the first
      model declared with it. */
  lemma SimulatorOfXSizedScreen()
    ensures Matches(ScreenIPhone12mini, 375.0, 812.0, 3.0)
    ensures SimulatorDeviceModel(375.0, 812.0, 3.0) == IPhoneX
  {
    FirstXScreenModel();
    assert Selects(AllModels, ScreenIPhoneX, 375.0, 812.0, 3.0);
    SimulatorPicksScreen(AllModels, ScreenIPhoneX, 375.0, 812.0, 3.0);
    assert SimulatorDeviceModel(375.0, 812.0, 3.0) == SimulatorModelFrom(AllModels, 0, 375.0, 812.0, 3.0);
  }

  /** A screen no model has is reported as the simulator itself. */
  lemma SimulatorOfUnknownScreen()
    ensures SimulatorDeviceModel(100.0, 100.0, 1.0) == Simulator
  {
  }

  /** `UIDevice.deviceModel(for:)`; the simulator identifiers defer to the simulator lookup. */
  function DeviceModelFor(identifier: string, width: real, height: real, scale: real): (m: DeviceModel)
    ensures identifier in {"i386", "x86_64", "arm64"} ==> m == SimulatorDeviceModel(width, height, scale)
    ensures m == Other ==> identifier !in {"i386", "x86_64", "arm64"}
  {
    match identifier
    case "iPod5,1" => IPodTouch5
    case "iPod7,1" => IPodTouch6
    case "iPod9,1" => IPodTouch7
    case "iPhone3,1" | "iPhone3,2" | "iPhone3,3" => IPhone4
    case "iPhone4,1" => IPhone4s
    case "iPhone5,1" | "iPhone5,2" => IPhone5
    case "iPhone5,3" | "iPhone5,4" => IPhone5c
    case "iPhone6,1" | "iPhone6,2" => IPhone5s
    case "iPhone7,2" => IPhone6
    case "iPhone7,1" => IPhone6Plus
    case "iPhone8,1" => IPhone6s
    case "iPhone8,2" => IPhone6sPlus
    case "iPhone8,4" => IPhoneSE
    case "iPhone9,1" | "iPhone9,3" => IPhone7
    case "iPhone9,2" | "iPhone9,4" => IPhone7Plus
    case "iPhone10,1" | "iPhone10,4" => IPhone8
    case "iPhone10,2" | "iPhone10,5" => IPhone8Plus
    case "iPhone10,3" | "iPhone10,6" => IPhoneX
    case "iPhone11,2" => IPhoneXS
    case "iPhone11,4" | "iPhone11,6" => IPhoneXSMax
    case "iPhone11,8" => IPhoneXR
    case "iPhone12,1" => IPhone11
    case "iPhone12,3" => IPhone11Pro
    case "iPhone12,5" => IPhone11ProMax
    case "iPhone12,8" => IPhoneSE2
    case "iPhone13,1" => IPhone12mini
    case "iPhone13,2" => IPhone12
    case "iPhone13,3" => IPhone12Pro
    case "iPhone13,4" => IPhone12ProMax
    case "iPhone14,4" => IPhone13mini
    case "iPhone14,5" => IPhone13
    case "iPhone14,2" => IPhone13Pro
    case "iPhone14,3" => IPhone13ProMax
    case "iPhone14,6" => IPhoneSE3
    case "iPhone14,7" | "iPhone14,1" => IPhone14
    case "iPhone14,8" | "iPhone14,9" => IPhone14Plus
    case "iPhone15,2" => IPhone14Pro
    case "iPhone15,3" => IPhone14ProMax
    case "iPhone15,4" => IPhone15
    case "iPhone15,5" => IPhone15Plus
    case "iPhone16,1" => IPhone15Pro
    case "iPhone16,2" => IPhone15ProMax
    case "i386" | "x86_64" | "arm64" => SimulatorDeviceModel(width, height, scale)
    case _ => Other
  }

  /** The identifier of an iPhone 12 mini. */
  lemma IdentifierOfTwelveMini(width: real, height: real, scale: real)
    ensures DeviceModelFor("iPhone13,1", width, height, scale) == IPhone12mini
  {
  }
}
