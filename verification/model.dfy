/** The plain records of the app: an installed app, the framework it was built with, the result of
    analysing it, and the list screen's sort and filter choices. */
module AppModel {

  datatype Option<T> = None | Some(value: T)

  /** The framework (or native toolkit) an app is classified as. */
  datatype AppType =
    | Flutter
    | ReactNative
    | Xamarin
    | Cordova
    | Ionic
    | NativeAndroid
    | Kmp
    | Unity
    | Unknown

  /** An installed app as the package manager describes it (the icon is not modelled).
      Times are milliseconds since the epoch and the size is in bytes; all are Kotlin `Long`s,
      only ever compared, so they are unbounded integers here. */
  datatype AppInfo = AppInfo(
    packageName: string,
    appName: string,
    versionName: string,
    versionCode: int,
    installTime: int,
    updateTime: int,
    appSize: int,
    isSystemApp: bool,
    targetSdkVersion: int,
    minSdkVersion: int,
    appType: AppType := Unknown)

  /** How sure the analyzer is about its classification; the app stores it as a float. */
  datatype Confidence = High | Medium | Low | Minimal {
    /** The stored float as a percentage. */
    function Percent(): (p: nat)
      ensures 20 <= p <= 90
    {
      match this
      case High => 90
      case Medium => 70
      case Low => 50
      case Minimal => 20
    }
  }

  /** What the analyzer found out about one app. */
  datatype AppAnalysis = AppAnalysis(
    appInfo: AppInfo,
    detectedFrameworks: seq<string>,
    nativeLibraries: seq<string>,
    usedLibraries: seq<string>,
    permissions: seq<string>,
    hasFlutterAssets: bool,
    hasReactNativeAssets: bool,
    hasXamarinAssets: bool,
    hasCordovaAssets: bool,
    hasUnityAssets: bool,
    analysisConfidence: Confidence)

  datatype SortOrder = NameAsc | NameDesc | InstallDateAsc | InstallDateDesc | UpdateDateDesc | SizeDesc

  datatype AppFilter = All | UserAppsOnly

  /** The list screen's choices; `FilterState()` is the initial state: by name, all apps, no query. */
  datatype FilterState = FilterState(
    sortOrder: SortOrder := NameAsc,
    appFilter: AppFilter := All,
    searchQuery: string := "")
}
