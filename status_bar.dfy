/** The status-bar configurator and the application-wide stack of requested status-bar
    styles. Views push a style when they appear and pop it when they disappear; the style on
    top, or the configurator's fallback when the stack is empty, is the one applied. Devices
    with a home button ignore both operations. */
module StatusBar {
  import opened Outcomes
  import opened SwiftUICoding
  import DeviceInfo

  /** `UIStatusBarStyle`. */
  datatype StatusBarStyle = Default | LightContent | DarkContent

  /** The style the configurator stores when asked to apply `style` under `colorScheme`:
      `.default` follows a chosen color scheme (dark text on light, light text on dark); any
      other style, or any style without a scheme, is kept verbatim. */
  function ResolvedStyle(colorScheme: Option<ColorScheme>, style: StatusBarStyle): (r: StatusBarStyle)
    ensures style != Default || colorScheme.None? ==> r == style
    ensures style == Default && colorScheme == Some(Light) ==> r == DarkContent
    ensures style == Default && colorScheme == Some(Dark) ==> r == LightContent
  {
    match colorScheme
    case None => style
    case Some(scheme) =>
      if style != Default then style
      else
        match scheme
        case Light => DarkContent
        case Dark => LightContent
  }

  /** Applying a resolved style again changes nothing, and `.default` survives resolution only
      when no color scheme is chosen. */
  lemma ResolvedStyleIdempotent(colorScheme: Option<ColorScheme>, style: StatusBarStyle)
    ensures ResolvedStyle(colorScheme, ResolvedStyle(colorScheme, style)) == ResolvedStyle(colorScheme, style)
    ensures ResolvedStyle(colorScheme, style) == Default <==> style == Default && colorScheme.None?
  {
  }

  /** The style `setPreferredColorScheme` installs as both the current and the fallback style. */
  function PreferredStyle(colorScheme: Option<ColorScheme>): (r: StatusBarStyle)
    ensures colorScheme.None? <==> r == Default
    ensures colorScheme.Some? ==> r == ResolvedStyle(colorScheme, Default)
  {
    match colorScheme
    case None => Default
    case Some(Dark) => LightContent
    case Some(Light) => DarkContent
  }

  /** `StatusBarConfigurator`. The window it installs is not modelled. */
  class StatusBarConfigurator {
    var statusBarStyle: StatusBarStyle
    var hideStatusBar: bool
    var hideHomeIndicator: bool
    var colorScheme: Option<ColorScheme>
    var fallbackStyle: StatusBarStyle

    constructor()
      ensures statusBarStyle == Default && !hideStatusBar && !hideHomeIndicator
      ensures colorScheme == None && fallbackStyle == Default
    {
      statusBarStyle := Default;
      hideStatusBar := false;
      hideHomeIndicator := false;
      colorScheme := None;
      fallbackStyle := Default;
    }

    /** `setStatusBarStyle`: stores the style resolved against the color scheme. */
    method SetStatusBarStyle(style: StatusBarStyle)
      modifies this`statusBarStyle
      ensures statusBarStyle == ResolvedStyle(colorScheme, style)
    {
      if colorScheme.None? || style != Default {
        statusBarStyle := style;
        return;
      }
      match colorScheme.value
      case Light => statusBarStyle := DarkContent;
      case Dark => statusBarStyle := LightContent;
    }

    /** `setPreferredColorScheme`: sets the current and the fallback style for the scheme; the
        stored color scheme itself is left as it was. */
    method SetPreferredColorScheme(scheme: Option<ColorScheme>)
      modifies this`statusBarStyle, this`fallbackStyle
      ensures statusBarStyle == PreferredStyle(scheme) && fallbackStyle == PreferredStyle(scheme)
    {
      if scheme.Some? {
        if scheme.value == Dark {
          statusBarStyle := LightContent;
          fallbackStyle := LightContent;
        } else {
          statusBarStyle := DarkContent;
          fallbackStyle := DarkContent;
        }
      } else {
        statusBarStyle := Default;
        fallbackStyle := Default;
      }
    }
  }

  /** The style applied after popping from `hierarchy`: the new top, or the fallback. */
  function StyleAfterPop(hierarchy: seq<StatusBarStyle>, fallbackStyle: StatusBarStyle): (r: StatusBarStyle)
    ensures |hierarchy| <= 1 ==> r == fallbackStyle
    ensures |hierarchy| > 1 ==> r == hierarchy[|hierarchy| - 2]
  {
    var rest := if |hierarchy| == 0 then [] else hierarchy[..|hierarchy| - 1];
    if |rest| == 0 then fallbackStyle else rest[|rest| - 1]
  }

  /** The `UIApplication` side: the stack of requested styles and the shared configurator. */
  class Application {
    var statusBarStyleHierarchy: seq<StatusBarStyle>
    const configurator: StatusBarConfigurator

    constructor(configurator: StatusBarConfigurator)
      ensures statusBarStyleHierarchy == [] && this.configurator == configurator
    {
      statusBarStyleHierarchy := [];
      this.configurator := configurator;
    }

    /** `pushStatusBarStyle`: on a device without a home button, the style goes on top of the
        stack and is applied; otherwise nothing changes. */
    method PushStatusBarStyle(style: StatusBarStyle, model: DeviceInfo.DeviceModel)
      modifies this`statusBarStyleHierarchy, configurator`statusBarStyle
      ensures DeviceInfo.HasHomeButton(model) ==>
                statusBarStyleHierarchy == old(statusBarStyleHierarchy)
                && configurator.statusBarStyle == old(configurator.statusBarStyle)
      ensures !DeviceInfo.HasHomeButton(model) ==>
                statusBarStyleHierarchy == old(statusBarStyleHierarchy) + [style]
                && configurator.statusBarStyle == ResolvedStyle(configurator.colorScheme, style)
    {
      if DeviceInfo.HasHomeButton(model) {
        return;
      }
      statusBarStyleHierarchy := statusBarStyleHierarchy + [style];
      configurator.SetStatusBarStyle(style);
    }

    /** `popStatusBarStyle`: on a device without a home button, the top style (if any) is
        removed and the new top, or the fallback style, is applied; otherwise nothing
        changes. */
    method PopStatusBarStyle(model: DeviceInfo.DeviceModel)
      modifies this`statusBarStyleHierarchy, configurator`statusBarStyle
      ensures DeviceInfo.HasHomeButton(model) ==>
                statusBarStyleHierarchy == old(statusBarStyleHierarchy)
                && configurator.statusBarStyle == old(configurator.statusBarStyle)
      ensures !DeviceInfo.HasHomeButton(model) ==>
                && statusBarStyleHierarchy == (if |old(statusBarStyleHierarchy)| == 0 then []
                                               else old(statusBarStyleHierarchy)[..|old(statusBarStyleHierarchy)| - 1])
                && configurator.statusBarStyle ==
                     ResolvedStyle(configurator.colorScheme,
                                   StyleAfterPop(old(statusBarStyleHierarchy), configurator.fallbackStyle))
    {
      if DeviceInfo.HasHomeButton(model) {
        return;
      }
      if |statusBarStyleHierarchy| > 0 {
        statusBarStyleHierarchy := statusBarStyleHierarchy[..|statusBarStyleHierarchy| - 1];
      }
      if |statusBarStyleHierarchy| > 0 {
        configurator.SetStatusBarStyle(statusBarStyleHierarchy[|statusBarStyleHierarchy| - 1]);
      } else {
        configurator.SetStatusBarStyle(configurator.fallbackStyle);
      }
    }

    /** A view appearing and disappearing: the push is undone, and the previous top style, or
        the fallback, is applied again. */
    method AppearThenDisappear(style: StatusBarStyle, model: DeviceInfo.DeviceModel)
      modifies this`statusBarStyleHierarchy, configurator`statusBarStyle
      ensures statusBarStyleHierarchy == old(statusBarStyleHierarchy)
      ensures !DeviceInfo.HasHomeButton(model) ==>
                configurator.statusBarStyle ==
                  ResolvedStyle(configurator.colorScheme,
                                if |old(statusBarStyleHierarchy)| == 0 then configurator.fallbackStyle
                                else old(statusBarStyleHierarchy)[|old(statusBarStyleHierarchy)| - 1])
    {
      PushStatusBarStyle(style, model);
      PopStatusBarStyle(model);
    }
  }
}
