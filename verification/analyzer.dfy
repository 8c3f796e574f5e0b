/** The archive-entry classifier of `AppAnalyzer`: one pass over the entry names of an app's package
    archive detects framework signatures, collects native `.so` file names and infers libraries; then
    the flags are mapped to an `AppType`, the type's usual libraries are added and a confidence is set.

    The package manager and the archive are inputs here: the entry names of the archive (as far as they
    could be read) and the requested permissions. The three lists the source passes around as
    `MutableList`s are `seq<string>` values that each step takes in and hands back. */
module Analyzer {
  import opened Strings
  import opened AppModel

  // ---------------------------------------------------------------------------------------------
  // Lists that are only ever appended to, and only when the element is new
  // ---------------------------------------------------------------------------------------------

  predicate Distinct(s: seq<string>) {
    s == [] || (s[|s| - 1] !in s[..|s| - 1] && Distinct(s[..|s| - 1]))
  }

  /** `after` is `before` with elements appended at the end, and a duplicate-free `before` gives a
      duplicate-free `after` (duplicate-freedom is preserved). */
  predicate Extends(before: seq<string>, after: seq<string>) {
    before <= after && (Distinct(before) ==> Distinct(after))
  }

  lemma ExtendsTransitive(a: seq<string>, b: seq<string>, c: seq<string>)
    requires Extends(a, b) && Extends(b, c)
    ensures Extends(a, c)
  {
  }

  /** `addLibraryIfNotExists`, also written inline for the framework and native-library lists. */
  function AddIfAbsent(libs: seq<string>, name: string): (r: seq<string>)
    ensures name in r
    ensures Extends(libs, r) && |r| <= |libs| + 1
    ensures name in libs ==> r == libs
    ensures forall x {:trigger x in r} :: x in r <==> x in libs || x == name
  {
    if name in libs then libs else libs + [name]
  }

  /** A `forEach` over `names` calling `addLibraryIfNotExists` on each, in order. */
  function AddAllIfAbsent(libs: seq<string>, names: seq<string>): (r: seq<string>)
    ensures Extends(libs, r)
    ensures forall x {:trigger x in r} :: x in r <==> x in libs || x in names
    ensures (forall x :: x in names ==> x in libs) ==> r == libs
    decreases |names|
  {
    if names == [] then libs
    else
      var r := AddAllIfAbsent(AddIfAbsent(libs, names[0]), names[1..]);
      assert forall x :: x in names <==> x == names[0] || x in names[1..];
      r
  }

  /** `Distinct` is the usual "no two positions hold the same element". */
  lemma {:induction false} DistinctPairwise(s: seq<string>)
    ensures Distinct(s) <==> forall i, j :: 0 <= i < j < |s| ==> s[i] != s[j]
  {
    if s != [] {
      var init := s[..|s| - 1];
      DistinctPairwise(init);
      assert forall i :: 0 <= i < |init| ==> init[i] == s[i];
      if !Distinct(s) && s[|s| - 1] in init {
        var i :| 0 <= i < |init| && init[i] == s[|s| - 1];
        assert s[i] == s[|s| - 1];
      }
    }
  }

  /** `addLibraryIfNotExists` is idempotent. */
  lemma AddIfAbsentIdempotent(libs: seq<string>, name: string)
    ensures AddIfAbsent(AddIfAbsent(libs, name), name) == AddIfAbsent(libs, name)
  {
  }

  /** Adding a list of names one by one is adding all but the last, then the last. */
  lemma {:induction false} AddAllIfAbsentSnoc(libs: seq<string>, names: seq<string>, name: string)
    ensures AddAllIfAbsent(libs, names + [name]) == AddIfAbsent(AddAllIfAbsent(libs, names), name)
    decreases |names|
  {
    if names == [] {
      assert [] + [name] == [name];
    } else {
      assert (names + [name])[1..] == names[1..] + [name];
      AddAllIfAbsentSnoc(AddIfAbsent(libs, names[0]), names[1..], name);
    }
  }

  /** One step of a `forEach` over `names`, stated on prefixes of `names`. */
  lemma AddAllIfAbsentStep(libs: seq<string>, names: seq<string>, i: nat)
    requires i < |names|
    ensures AddAllIfAbsent(libs, names[..i + 1]) == AddIfAbsent(AddAllIfAbsent(libs, names[..i]), names[i])
  {
    assert names[..i + 1] == names[..i] + [names[i]];
    AddAllIfAbsentSnoc(libs, names[..i], names[i]);
  }

  /** The library names of a `mapOf(libName to pattern)` table, in table order, whose pair satisfies `hit`. */
  function PickKeys(table: seq<(string, string)>, hit: (string, string) -> bool): (r: seq<string>)
    ensures forall x {:trigger x in r} :: x in r <==> exists k :: 0 <= k < |table| && table[k].0 == x && hit(table[k].0, table[k].1)
  {
    if table == [] then []
    else
      var rest := PickKeys(table[1..], hit);
      assert forall k :: 1 <= k < |table| ==> table[k] == table[1..][k - 1];
      (if hit(table[0].0, table[0].1) then [table[0].0] else []) + rest
  }

  /** The elements of a `listOf(...)` table, in order, that satisfy `hit`. */
  function PickNames(names: seq<string>, hit: string -> bool): (r: seq<string>)
    ensures forall x {:trigger x in r} :: x in r <==> x in names && hit(x)
  {
    if names == [] then []
    else
      var rest := PickNames(names[1..], hit);
      assert forall x :: x in names <==> x == names[0] || x in names[1..];
      (if hit(names[0]) then [names[0]] else []) + rest
  }

  /** The first pair of `table` whose pattern (first component) occurs in `s`, as a `when` with one
      `s.contains(pattern) -> value` branch per pair. */
  function FirstMatch(table: seq<(string, string)>, s: string): (r: Option<string>)
    ensures r.None? <==> forall k :: 0 <= k < |table| ==> !Contains(s, table[k].0)
    ensures r.Some? ==> exists k :: 0 <= k < |table| && Contains(s, table[k].0) && r.value == table[k].1
                                    && forall j :: 0 <= j < k ==> !Contains(s, table[j].0)
  {
    if table == [] then None
    else if Contains(s, table[0].0) then Some(table[0].1)
    else
      var r := FirstMatch(table[1..], s);
      assert forall k :: 1 <= k < |table| ==> table[k] == table[1..][k - 1];
      if r.Some? then
        var k :| 0 <= k < |table[1..]| && Contains(s, table[1..][k].0) && r.value == table[1..][k].1
                 && forall j :: 0 <= j < k ==> !Contains(s, table[1..][j].0);
        assert forall j :: 0 <= j < k + 1 ==> !Contains(s, table[j].0) by {
          forall j | 0 <= j < k + 1 ensures !Contains(s, table[j].0) {
            if j > 0 { assert table[j] == table[1..][j - 1]; }
          }
        }
        r
      else r
  }

  function AddIfSome(libs: seq<string>, name: Option<string>): (r: seq<string>)
    ensures Extends(libs, r) && |r| <= |libs| + 1
    ensures forall x {:trigger x in r} :: x in r <==> x in libs || name == Some(x)
  {
    match name
    case None => libs
    case Some(n) => AddIfAbsent(libs, n)
  }

  // ---------------------------------------------------------------------------------------------
  // Frameworks and their signatures
  // ---------------------------------------------------------------------------------------------

  /** The app types the entry scan can detect, identified with their `AppType`. */
  type Framework = t: AppType | t.Flutter? || t.ReactNative? || t.Xamarin? || t.Cordova? || t.Unity?
    witness Flutter

  /** Position in the priority order of `determineAppType`: Flutter first, Unity last. */
  function Rank(f: Framework): (n: nat)
    ensures n < 5
  {
    if f.Flutter? then 0
    else if f.ReactNative? then 1
    else if f.Xamarin? then 2
    else if f.Cordova? then 3
    else 4
  }

  /** The label the scan records in `detectedFrameworks`. */
  function Label(f: Framework): string {
    if f.Flutter? then "Flutter"
    else if f.ReactNative? then "React Native"
    else if f.Xamarin? then "Xamarin"
    else if f.Cordova? then "Cordova/PhoneGap"
    else "Unity"
  }

  /** The substrings of an entry name that reveal each framework in the detection pass. */
  function Signatures(f: Framework): seq<string> {
    if f.Flutter? then ["flutter_assets", "libflutter.so", "isolate_snapshot_data", "kernel_blob.bin"]
    else if f.ReactNative? then ["assets/index.android.bundle", "libreactnativejni.so", "libhermes.so", "assets/index.bundle"]
    else if f.Xamarin? then ["assemblies/", "libmonodroid.so", "libxamarin-app.so"]
    else if f.Cordova? then ["assets/www/", "cordova.js", "phonegap.js"]
    else ["libunity.so", "assets/bin/Data/", "libmono.so"]
  }

  /** The (shorter) substrings that select each framework's library helper in `analyzeLibrariesByType`. */
  function LibraryPatterns(f: Framework): seq<string> {
    if f.Flutter? then ["flutter_assets", "libflutter.so"]
    else if f.ReactNative? then ["index.android.bundle", "libreactnativejni.so"]
    else if f.Xamarin? then ["assemblies/", "libmonodroid.so"]
    else if f.Cordova? then ["assets/www/", "cordova.js"]
    else ["libunity.so", "assets/bin/Data/"]
  }

  /** A disjunction `s.contains(p0) || s.contains(p1) || ...`. */
  predicate ContainsAny(s: string, parts: seq<string>) {
    parts != [] && (Contains(s, parts[0]) || ContainsAny(s, parts[1..]))
  }

  predicate Detects(f: Framework, entryName: string) {
    ContainsAny(entryName, Signatures(f))
  }

  /** An entry under `lib/` whose name ends in `.so`. */
  predicate IsNativeLibEntry(entryName: string) {
    StartsWith(entryName, "lib/") && EndsWith(entryName, ".so")
  }

  /** `entryName.substringAfterLast("/")` */
  function FileName(entryName: string): string {
    SubstringAfterLast(entryName, '/')
  }

  /** The five flags returned by the scan (`ApkAnalysis`), all false by default. */
  datatype ApkAnalysis = ApkAnalysis(
    hasFlutterAssets: bool := false,
    hasReactNativeAssets: bool := false,
    hasXamarinAssets: bool := false,
    hasCordovaAssets: bool := false,
    hasUnityAssets: bool := false)

  function Flag(a: ApkAnalysis, f: Framework): bool {
    if f.Flutter? then a.hasFlutterAssets
    else if f.ReactNative? then a.hasReactNativeAssets
    else if f.Xamarin? then a.hasXamarinAssets
    else if f.Cordova? then a.hasCordovaAssets
    else a.hasUnityAssets
  }

  // ---------------------------------------------------------------------------------------------
  // Library inference, one helper per framework plus Android and Kotlin Multiplatform
  // ---------------------------------------------------------------------------------------------

  const FlutterPackages: seq<(string, string)> := [
    ("http", "assets/packages/http/"),
    ("shared_preferences", "assets/packages/shared_preferences/"),
    ("path_provider", "assets/packages/path_provider/"),
    ("sqflite", "assets/packages/sqflite/"),
    ("camera", "assets/packages/camera/"),
    ("image_picker", "assets/packages/image_picker/"),
    ("url_launcher", "assets/packages/url_launcher/"),
    ("webview_flutter", "assets/packages/webview_flutter/"),
    ("firebase_core", "assets/packages/firebase_core/"),
    ("firebase_auth", "assets/packages/firebase_auth/"),
    ("cloud_firestore", "assets/packages/cloud_firestore/"),
    ("provider", "assets/packages/provider/"),
    ("bloc", "assets/packages/bloc/"),
    ("dio", "assets/packages/dio/"),
    ("get", "assets/packages/get/"),
    ("flutter_riverpod", "assets/packages/flutter_riverpod/"),
    ("go_router", "assets/packages/go_router/")]

  const ReactNativePackages: seq<(string, string)> := [
    ("react-navigation", "react-navigation"),
    ("react-redux", "react-redux"),
    ("redux-toolkit", "@reduxjs/toolkit"),
    ("react-native-vector-icons", "react-native-vector-icons"),
    ("react-native-gesture-handler", "react-native-gesture-handler"),
    ("react-native-reanimated", "react-native-reanimated"),
    ("react-native-screens", "react-native-screens"),
    ("react-native-safe-area-context", "react-native-safe-area-context"),
    ("react-native-async-storage", "@react-native-async-storage"),
    ("react-native-camera", "react-native-camera"),
    ("react-native-image-picker", "react-native-image-picker"),
    ("react-native-webview", "react-native-webview"),
    ("react-native-maps", "react-native-maps"),
    ("react-native-firebase", "@react-native-firebase"),
    ("react-native-push-notification", "react-native-push-notification"),
    ("react-native-linear-gradient", "react-native-linear-gradient"),
    ("react-native-svg", "react-native-svg"),
    ("lottie-react-native", "lottie-react-native")]

  /** `when` branches over a `META-INF/` entry name: (pattern, library). */
  const MetaInfLibraries: seq<(string, string)> := [
    ("androidx.lifecycle", "androidx.lifecycle"),
    ("androidx.navigation", "androidx.navigation"),
    ("androidx.room", "androidx.room"),
    ("androidx.work", "androidx.work"),
    ("androidx.compose", "androidx.compose"),
    ("androidx.camera", "androidx.camera"),
    ("androidx.biometric", "androidx.biometric"),
    ("retrofit", "retrofit2"),
    ("okhttp", "okhttp3"),
    ("gson", "gson"),
    ("glide", "glide"),
    ("picasso", "picasso"),
    ("dagger", "dagger"),
    ("rxjava", "rxjava")]

  /** `when` branches over the lower-cased file name of a native library: (pattern, library). */
  const NativeSoLibraries: seq<(string, string)> := [
    ("okhttp", "okhttp3"),
    ("retrofit", "retrofit2"),
    ("glide", "glide"),
    ("picasso", "picasso"),
    ("gson", "gson")]

  const CordovaPlugins: seq<string> := [
    "cordova-plugin-camera", "cordova-plugin-file", "cordova-plugin-geolocation",
    "cordova-plugin-device", "cordova-plugin-network-information", "cordova-plugin-battery-status",
    "cordova-plugin-vibration", "cordova-plugin-statusbar", "cordova-plugin-splashscreen"]

  const KmpLibraries: seq<string> := [
    "kotlinx.coroutines", "kotlinx.serialization", "ktor", "sqldelight",
    "koin", "kodein", "multiplatform-settings", "kermit"]

  /** `x` is a package of `table` whose asset directory occurs in the entry name. */
  predicate FlutterPackageIn(table: seq<(string, string)>, entryName: string, x: string) {
    exists k :: 0 <= k < |table| && table[k].0 == x && Contains(entryName, table[k].1)
  }

  /** `analyzeFlutterLibraries`: every package whose asset directory occurs in the entry name. */
  function AnalyzeFlutterLibraries(entryName: string, libs: seq<string>): (r: seq<string>)
    ensures Extends(libs, r)
    ensures forall x {:trigger x in r} :: x in r <==> x in libs || FlutterPackageIn(FlutterPackages, entryName, x)
  {
    FlutterLibrariesFrom(FlutterPackages, entryName, libs)
  }

  /** The pass of `analyzeFlutterLibraries` over any package table. */
  function FlutterLibrariesFrom(table: seq<(string, string)>, entryName: string, libs: seq<string>): (r: seq<string>)
    ensures Extends(libs, r)
    ensures forall x {:trigger x in r} :: x in r <==> x in libs || FlutterPackageIn(table, entryName, x)
  {
    AddAllIfAbsent(libs, PickKeys(table, (name, pattern) => Contains(entryName, pattern)))
  }

  /** A React Native package shows in an entry name: its pattern inside an asset, under `node_modules/`,
      or with '-' written as '_'. */
  predicate ReactNativePackageHit(entryName: string, pattern: string) {
    || (Contains(entryName, "assets/") && Contains(entryName, pattern))
    || Contains(entryName, "node_modules/" + pattern)
    || Contains(entryName, ReplaceChar(pattern, '-', '_'))
  }

  /** A React Native package shows in a native library's file name. As in the source, `||` binds
      weaker than `&&`: any file name containing both "react" and "native" matches every package. */
  predicate ReactNativeModuleHit(soFileName: string, libName: string) {
    || Contains(soFileName, RemoveChar(RemoveChar(libName, '-'), '_'))
    || (Contains(soFileName, "react") && Contains(soFileName, "native"))
  }

  /** `x` is a package of `table` that shows in the entry name, or in the file name of a native
      library entry. */
  predicate ReactNativePackageIn(table: seq<(string, string)>, entryName: string, x: string) {
    exists k :: 0 <= k < |table| && table[k].0 == x &&
      (ReactNativePackageHit(entryName, table[k].1) ||
       (IsNativeLibEntry(entryName) && ReactNativeModuleHit(FileName(entryName), x)))
  }

  /** `analyzeReactNativeLibraries`: a pass over the package table by pattern, then, for a native
      library entry, a second pass by library name against its file name. */
  function AnalyzeReactNativeLibraries(entryName: string, libs: seq<string>): (r: seq<string>)
    ensures Extends(libs, r)
    ensures forall x {:trigger x in r} :: x in r <==> x in libs || ReactNativePackageIn(ReactNativePackages, entryName, x)
  {
    ReactNativeLibrariesFrom(ReactNativePackages, entryName, libs)
  }

  /** Because `||` binds weaker than `&&`, a native library whose file name contains both "react" and
      "native" makes `analyzeReactNativeLibraries` add every package of the table. */
  lemma ReactNativeSoAddsAll(entryName: string, libs: seq<string>)
    requires IsNativeLibEntry(entryName)
    requires Contains(FileName(entryName), "react") && Contains(FileName(entryName), "native")
    ensures forall k :: 0 <= k < |ReactNativePackages| ==>
      ReactNativePackages[k].0 in AnalyzeReactNativeLibraries(entryName, libs)
  {
    forall k | 0 <= k < |ReactNativePackages|
      ensures ReactNativePackages[k].0 in AnalyzeReactNativeLibraries(entryName, libs)
    {
      assert ReactNativeModuleHit(FileName(entryName), ReactNativePackages[k].0);
      assert ReactNativePackageIn(ReactNativePackages, entryName, ReactNativePackages[k].0);
    }
  }

  /** The two passes of `analyzeReactNativeLibraries` over any package table. */
  function ReactNativeLibrariesFrom(table: seq<(string, string)>, entryName: string, libs: seq<string>): (r: seq<string>)
    ensures Extends(libs, r)
    ensures forall x {:trigger x in r} :: x in r <==> x in libs || ReactNativePackageIn(table, entryName, x)
  {
    var byPattern := AddAllIfAbsent(libs, PickKeys(table, (name, pattern) => ReactNativePackageHit(entryName, pattern)));
    if IsNativeLibEntry(entryName) then
      var soFileName := FileName(entryName);
      var r := AddAllIfAbsent(byPattern, PickKeys(table, (name, pattern) => ReactNativeModuleHit(soFileName, name)));
      ExtendsTransitive(libs, byPattern, r);
      r
    else byPattern
  }

  /** `x` is the library of the first matching `META-INF/` pattern, or of the first matching pattern in
      a native library's lower-cased file name. */
  predicate AndroidLibraryIn(entryName: string, x: string) {
    || (StartsWith(entryName, "META-INF/") && FirstMatch(MetaInfLibraries, entryName) == Some(x))
    || (IsNativeLibEntry(entryName) && FirstMatch(NativeSoLibraries, Lowercase(FileName(entryName))) == Some(x))
  }

  /** `analyzeAndroidLibraries`: at most one library from the first matching `META-INF/` pattern, or
      from the first matching pattern in a native library's lower-cased file name. */
  function AnalyzeAndroidLibraries(entryName: string, libs: seq<string>): (r: seq<string>)
    ensures Extends(libs, r) && |r| <= |libs| + 1
    ensures forall x {:trigger x in r} :: x in r <==> x in libs || AndroidLibraryIn(entryName, x)
  {
    var fromMetaInf :=
      if StartsWith(entryName, "META-INF/") then AddIfSome(libs, FirstMatch(MetaInfLibraries, entryName))
      else libs;
    if IsNativeLibEntry(entryName) then
      assert !StartsWith(entryName, "META-INF/") by { assert "lib/"[0] != "META-INF/"[0]; }
      AddIfSome(fromMetaInf, FirstMatch(NativeSoLibraries, Lowercase(FileName(entryName))))
    else fromMetaInf
  }

  /** `substringAfterLast("/").substringBeforeLast(".")`: the file name without its last extension. */
  function AssemblyName(entryName: string): string {
    SubstringBeforeLast(FileName(entryName), '.')
  }

  /** `x` is the non-empty assembly name of an entry under `assemblies/`. */
  predicate XamarinAssemblyIn(entryName: string, x: string) {
    StartsWith(entryName, "assemblies/") && x == AssemblyName(entryName) && x != ""
  }

  /** `analyzeXamarinLibraries`: the assembly name of an entry whose path starts with `assemblies/`, at
      any depth, unless empty. */
  function AnalyzeXamarinLibraries(entryName: string, libs: seq<string>): (r: seq<string>)
    ensures Extends(libs, r) && |r| <= |libs| + 1
    ensures forall x {:trigger x in r} :: x in r <==> x in libs || XamarinAssemblyIn(entryName, x)
  {
    if StartsWith(entryName, "assemblies/") && AssemblyName(entryName) != "" then
      AddIfAbsent(libs, AssemblyName(entryName))
    else libs
  }

  /** `x` is a known plugin named by an entry under `assets/www/plugins/`. */
  predicate CordovaPluginIn(entryName: string, x: string) {
    Contains(entryName, "assets/www/plugins/") && x in CordovaPlugins && Contains(entryName, x)
  }

  /** `analyzeCordovaLibraries`: the known plugins named by an entry under `assets/www/plugins/`. */
  function AnalyzeCordovaLibraries(entryName: string, libs: seq<string>): (r: seq<string>)
    ensures Extends(libs, r)
    ensures forall x {:trigger x in r} :: x in r <==> x in libs || CordovaPluginIn(entryName, x)
  {
    if Contains(entryName, "assets/www/plugins/") then
      AddAllIfAbsent(libs, PickNames(CordovaPlugins, plugin => Contains(entryName, plugin)))
    else libs
  }

  /** `x` is the non-empty managed assembly name of an entry under `assets/bin/Data/Managed/`. */
  predicate UnityAssemblyIn(entryName: string, x: string) {
    Contains(entryName, "assets/bin/Data/Managed/") && x == AssemblyName(entryName) && x != ""
  }

  /** `analyzeUnityLibraries`: the managed assembly name of an entry under `assets/bin/Data/Managed/`,
      unless empty. */
  function AnalyzeUnityLibraries(entryName: string, libs: seq<string>): (r: seq<string>)
    ensures Extends(libs, r) && |r| <= |libs| + 1
    ensures forall x {:trigger x in r} :: x in r <==> x in libs || UnityAssemblyIn(entryName, x)
  {
    if Contains(entryName, "assets/bin/Data/Managed/") && AssemblyName(entryName) != "" then
      AddIfAbsent(libs, AssemblyName(entryName))
    else libs
  }

  /** `x` is a Kotlin Multiplatform library whose dotted name, written as a path, occurs in the entry. */
  predicate KmpLibraryIn(entryName: string, x: string) {
    x in KmpLibraries && Contains(entryName, ReplaceChar(x, '.', '/'))
  }

  /** `analyzeKmpLibraries`: every library whose dotted name, written as a path, occurs in the entry. */
  function AnalyzeKmpLibraries(entryName: string, libs: seq<string>): (r: seq<string>)
    ensures Extends(libs, r)
    ensures forall x {:trigger x in r} :: x in r <==> x in libs || KmpLibraryIn(entryName, x)
  {
    AddAllIfAbsent(libs, PickNames(KmpLibraries, lib => Contains(entryName, ReplaceChar(lib, '.', '/'))))
  }

  /** The `when` of `analyzeLibrariesByType`: the first framework whose helper pattern the entry contains. */
  function LibraryBranch(entryName: string): (r: Option<Framework>)
    ensures r.Some? ==> ContainsAny(entryName, LibraryPatterns(r.value))
                        && forall g: Framework :: Rank(g) < Rank(r.value) ==> !ContainsAny(entryName, LibraryPatterns(g))
    ensures r.None? <==> forall g: Framework :: !ContainsAny(entryName, LibraryPatterns(g))
  {
    if ContainsAny(entryName, LibraryPatterns(Flutter)) then Option<Framework>.Some(Flutter)
    else if ContainsAny(entryName, LibraryPatterns(ReactNative)) then Option<Framework>.Some(ReactNative)
    else if ContainsAny(entryName, LibraryPatterns(Xamarin)) then Option<Framework>.Some(Xamarin)
    else if ContainsAny(entryName, LibraryPatterns(Cordova)) then Option<Framework>.Some(Cordova)
    else if ContainsAny(entryName, LibraryPatterns(Unity)) then Option<Framework>.Some(Unity)
    else None
  }

  /** What the helper of framework `f` finds in an entry name. */
  predicate FrameworkLibraryIn(f: Framework, entryName: string, x: string) {
    if f.Flutter? then FlutterPackageIn(FlutterPackages, entryName, x)
    else if f.ReactNative? then ReactNativePackageIn(ReactNativePackages, entryName, x)
    else if f.Xamarin? then XamarinAssemblyIn(entryName, x)
    else if f.Cordova? then CordovaPluginIn(entryName, x)
    else UnityAssemblyIn(entryName, x)
  }

  /** The helper of framework `f`. */
  function FrameworkLibraries(f: Framework, entryName: string, libs: seq<string>): (r: seq<string>)
    ensures Extends(libs, r)
    ensures forall x {:trigger x in r} :: x in r <==> x in libs || FrameworkLibraryIn(f, entryName, x)
  {
    if f.Flutter? then AnalyzeFlutterLibraries(entryName, libs)
    else if f.ReactNative? then AnalyzeReactNativeLibraries(entryName, libs)
    else if f.Xamarin? then AnalyzeXamarinLibraries(entryName, libs)
    else if f.Cordova? then AnalyzeCordovaLibraries(entryName, libs)
    else AnalyzeUnityLibraries(entryName, libs)
  }

  /** `analyzeLibrariesByType`: the helper of the first matching framework only, then the Android and
      Kotlin Multiplatform helpers for every entry. What an entry adds does not depend on what is already
      in the list. */
  function AnalyzeLibrariesByType(entryName: string, libs: seq<string>): (r: seq<string>)
    ensures Extends(libs, r)
    ensures forall x {:trigger x in r} :: x in r <==>
      || x in libs
      || (LibraryBranch(entryName).Some? && FrameworkLibraryIn(LibraryBranch(entryName).value, entryName, x))
      || AndroidLibraryIn(entryName, x)
      || KmpLibraryIn(entryName, x)
  {
    var afterFramework :=
      match LibraryBranch(entryName)
      case None => libs
      case Some(f) => FrameworkLibraries(f, entryName, libs);
    var afterAndroid := AnalyzeAndroidLibraries(entryName, afterFramework);
    ExtendsTransitive(libs, afterFramework, afterAndroid);
    var r := AnalyzeKmpLibraries(entryName, afterAndroid);
    ExtendsTransitive(libs, afterAndroid, r);
    r
  }

  // ---------------------------------------------------------------------------------------------
  // The entry scan of `analyzeApkContents`
  // ---------------------------------------------------------------------------------------------

  const AllLabels: seq<string> := ["Flutter", "React Native", "Xamarin", "Cordova/PhoneGap", "Unity"]

  /** The five labels are pairwise different, so a label names one framework. */
  lemma LabelsDistinct()
    ensures forall f: Framework, g: Framework :: Label(f) == Label(g) ==> f == g
  {
    forall f: Framework, g: Framework | Label(f) == Label(g) ensures f == g {
      assert Label(f)[0] == Label(g)[0];
    }
  }

  /** One framework check of the loop body: on a signature match, record the label once. */
  function AddLabelIf(fw: seq<string>, f: Framework, entryName: string): (r: seq<string>)
    ensures Extends(fw, r)
    ensures forall x {:trigger x in r} :: x in r <==> (x in fw || (x == Label(f) && Detects(f, entryName)))
  {
    if Detects(f, entryName) then AddIfAbsent(fw, Label(f)) else fw
  }

  /** The labels the five framework checks of one iteration record, in source order. */
  function DetectLabels(fw: seq<string>, entryName: string): (r: seq<string>)
    ensures Extends(fw, r)
    ensures forall f: Framework {:trigger Label(f) in r} :: Label(f) in r <==> (Label(f) in fw || Detects(f, entryName))
    ensures forall x {:trigger x in r} :: x in r ==> x in fw || x in AllLabels
  {
    var s1 := AddLabelIf(fw, Flutter, entryName);
    var s2 := AddLabelIf(s1, ReactNative, entryName);
    var s3 := AddLabelIf(s2, Xamarin, entryName);
    var s4 := AddLabelIf(s3, Cordova, entryName);
    var s5 := AddLabelIf(s4, Unity, entryName);
    ExtendsTransitive(fw, s1, s2);
    ExtendsTransitive(fw, s2, s3);
    ExtendsTransitive(fw, s3, s4);
    ExtendsTransitive(fw, s4, s5);
    LabelsDistinct();
    s5
  }

  /** The five flags after one iteration. */
  function DetectFlags(a: ApkAnalysis, entryName: string): (r: ApkAnalysis)
    ensures forall f: Framework :: Flag(r, f) == (Flag(a, f) || Detects(f, entryName))
  {
    ApkAnalysis(
      a.hasFlutterAssets || Detects(Flutter, entryName),
      a.hasReactNativeAssets || Detects(ReactNative, entryName),
      a.hasXamarinAssets || Detects(Xamarin, entryName),
      a.hasCordovaAssets || Detects(Cordova, entryName),
      a.hasUnityAssets || Detects(Unity, entryName))
  }

  /** The entry is a native library whose file name is `x`. */
  predicate ProvidesNativeLibrary(entryName: string, x: string) {
    IsNativeLibEntry(entryName) && FileName(entryName) == x
  }

  /** The native library collection of one iteration. */
  function CollectNativeLibrary(natives: seq<string>, entryName: string): (r: seq<string>)
    ensures Extends(natives, r)
    ensures forall x {:trigger x in r} :: x in r <==> (x in natives || ProvidesNativeLibrary(entryName, x))
  {
    if IsNativeLibEntry(entryName) then AddIfAbsent(natives, FileName(entryName)) else natives
  }

  /** The framework labels recorded while the loop processes the first `n` entry names, in order. */
  function ScanLabels(fw: seq<string>, entryNames: seq<string>, n: nat): (r: seq<string>)
    requires n <= |entryNames|
    ensures Extends(fw, r)
  {
    if n == 0 then fw
    else
      var before := ScanLabels(fw, entryNames, n - 1);
      var r := DetectLabels(before, entryNames[n - 1]);
      ExtendsTransitive(fw, before, r);
      r
  }

  /** The flags after the loop has processed the first `n` entry names. A flag, once set, stays set. */
  function ScanFlags(a: ApkAnalysis, entryNames: seq<string>, n: nat): (r: ApkAnalysis)
    requires n <= |entryNames|
    ensures forall f: Framework :: Flag(a, f) ==> Flag(r, f)
  {
    if n == 0 then a else DetectFlags(ScanFlags(a, entryNames, n - 1), entryNames[n - 1])
  }

  /** The native libraries collected while the loop processes the first `n` entry names. */
  function ScanNativeLibraries(natives: seq<string>, entryNames: seq<string>, n: nat): (r: seq<string>)
    requires n <= |entryNames|
    ensures Extends(natives, r)
  {
    if n == 0 then natives
    else
      var before := ScanNativeLibraries(natives, entryNames, n - 1);
      var r := CollectNativeLibrary(before, entryNames[n - 1]);
      ExtendsTransitive(natives, before, r);
      r
  }

  /** The libraries inferred while the loop processes the first `n` entry names. */
  function ScanUsedLibraries(libs: seq<string>, entryNames: seq<string>, n: nat): (r: seq<string>)
    requires n <= |entryNames|
    ensures Extends(libs, r)
  {
    if n == 0 then libs
    else
      var before := ScanUsedLibraries(libs, entryNames, n - 1);
      var r := AnalyzeLibrariesByType(entryNames[n - 1], before);
      ExtendsTransitive(libs, before, r);
      r
  }

  /** One of the first `n` entry names carries a signature of `f`. */
  predicate DetectedIn(f: Framework, entryNames: seq<string>, n: nat)
    requires n <= |entryNames|
  {
    n > 0 && (DetectedIn(f, entryNames, n - 1) || Detects(f, entryNames[n - 1]))
  }

  lemma {:induction false} DetectedInSomeEntry(f: Framework, entryNames: seq<string>, n: nat)
    requires n <= |entryNames|
    ensures DetectedIn(f, entryNames, n) <==> exists j :: 0 <= j < n && Detects(f, entryNames[j])
  {
    if n > 0 {
      DetectedInSomeEntry(f, entryNames, n - 1);
      SomeEntryUpTo(entryNames, n, e => Detects(f, e));
    }
  }

  /** A flag is set after the first `n` entries exactly when it was set before or one of those entries
      carries a signature of its framework. */
  lemma {:induction false} ScanFlagsDetect(a: ApkAnalysis, entryNames: seq<string>, n: nat, f: Framework)
    requires n <= |entryNames|
    ensures Flag(ScanFlags(a, entryNames, n), f) <==> Flag(a, f) || DetectedIn(f, entryNames, n)
  {
    if n > 0 {
      ScanFlagsDetect(a, entryNames, n - 1, f);
    }
  }

  /** A framework's label is recorded after the first `n` entries exactly when it was there before or
      one of those entries carries a signature of the framework. */
  lemma {:induction false} ScanLabelsDetect(fw: seq<string>, entryNames: seq<string>, n: nat, f: Framework)
    requires n <= |entryNames|
    ensures Label(f) in ScanLabels(fw, entryNames, n) <==> Label(f) in fw || DetectedIn(f, entryNames, n)
  {
    if n > 0 {
      ScanLabelsDetect(fw, entryNames, n - 1, f);
    }
  }

  /** Splits "one of the first `n` entries satisfies `p`" into the first `n - 1` entries and the last one. */
  lemma SomeEntryUpTo(entryNames: seq<string>, n: nat, p: string -> bool)
    requires 0 < n <= |entryNames|
    ensures (exists j :: 0 <= j < n && p(entryNames[j])) <==>
      ((exists j :: 0 <= j < n - 1 && p(entryNames[j])) || p(entryNames[n - 1]))
  {
    if exists j :: 0 <= j < n && p(entryNames[j]) {
      var j :| 0 <= j < n && p(entryNames[j]);
      if j < n - 1 {
        assert exists j :: 0 <= j < n - 1 && p(entryNames[j]);
      }
    }
  }

  lemma {:induction false} ScanLabelsOnlyLabels(fw: seq<string>, entryNames: seq<string>, n: nat)
    requires n <= |entryNames|
    ensures forall x :: x in ScanLabels(fw, entryNames, n) ==> x in fw || x in AllLabels
  {
    if n > 0 {
      ScanLabelsOnlyLabels(fw, entryNames, n - 1);
    }
  }

  /** After the first `n` entries the native libraries are those given plus the file names of the
      entries among them that lie under `lib/` and end in `.so`. */
  lemma {:induction false} ScanNativeLibrariesFound(natives: seq<string>, entryNames: seq<string>, n: nat, x: string)
    requires n <= |entryNames|
    ensures x in ScanNativeLibraries(natives, entryNames, n) <==> (x in natives ||
      exists j :: 0 <= j < n && ProvidesNativeLibrary(entryNames[j], x))
  {
    if n > 0 {
      ScanNativeLibrariesFound(natives, entryNames, n - 1, x);
      SomeEntryUpTo(entryNames, n, e => ProvidesNativeLibrary(e, x));
    }
  }

  /** One framework check of the loop body: when the entry name carries one of the framework's
      signatures, set its flag and record its label unless already there. */
  method CheckFramework(f: Framework, entryName: string, flag: bool, frameworks: seq<string>)
    returns (flagOut: bool, frameworksOut: seq<string>)
    ensures flagOut == (flag || Detects(f, entryName))
    ensures frameworksOut == AddLabelIf(frameworks, f, entryName)
  {
    flagOut, frameworksOut := flag, frameworks;
    if Detects(f, entryName) {
      flagOut := true;
      if Label(f) !in frameworksOut { frameworksOut := frameworksOut + [Label(f)]; }
    }
  }

  /** The five framework checks at the start of the loop body, in source order. */
  method CheckFrameworks(entryName: string, flags: ApkAnalysis, frameworks: seq<string>)
    returns (flagsOut: ApkAnalysis, frameworksOut: seq<string>)
    ensures flagsOut == DetectFlags(flags, entryName)
    ensures frameworksOut == DetectLabels(frameworks, entryName)
  {
    var hasFlutterAssets, hasReactNativeAssets, hasXamarinAssets, hasCordovaAssets, hasUnityAssets;
    hasFlutterAssets, frameworksOut := CheckFramework(Flutter, entryName, flags.hasFlutterAssets, frameworks);
    hasReactNativeAssets, frameworksOut := CheckFramework(ReactNative, entryName, flags.hasReactNativeAssets, frameworksOut);
    hasXamarinAssets, frameworksOut := CheckFramework(Xamarin, entryName, flags.hasXamarinAssets, frameworksOut);
    hasCordovaAssets, frameworksOut := CheckFramework(Cordova, entryName, flags.hasCordovaAssets, frameworksOut);
    hasUnityAssets, frameworksOut := CheckFramework(Unity, entryName, flags.hasUnityAssets, frameworksOut);
    flagsOut := ApkAnalysis(hasFlutterAssets, hasReactNativeAssets, hasXamarinAssets, hasCordovaAssets, hasUnityAssets);
  }

  /** `analyzeApkContents`: no archive path (or an archive that cannot be opened) leaves the lists alone
      and reports no framework; otherwise the entry loop runs over the entry names, in archive order, that
      could be read. A failure while reading ends the loop early and keeps what was found so far, so the
      names given are exactly those read before it. */
  method AnalyzeApkContents(
    apkEntries: Option<seq<string>>,
    detectedFrameworks: seq<string>,
    nativeLibraries: seq<string>,
    usedLibraries: seq<string>)
    returns (analysis: ApkAnalysis, frameworksOut: seq<string>, nativesOut: seq<string>, usedOut: seq<string>)
    ensures apkEntries.None? ==>
      analysis == ApkAnalysis() && frameworksOut == detectedFrameworks && nativesOut == nativeLibraries && usedOut == usedLibraries
    ensures apkEntries.Some? ==>
      && analysis == ScanFlags(ApkAnalysis(), apkEntries.value, |apkEntries.value|)
      && frameworksOut == ScanLabels(detectedFrameworks, apkEntries.value, |apkEntries.value|)
      && nativesOut == ScanNativeLibraries(nativeLibraries, apkEntries.value, |apkEntries.value|)
      && usedOut == ScanUsedLibraries(usedLibraries, apkEntries.value, |apkEntries.value|)
  {
    analysis, frameworksOut, nativesOut, usedOut := ApkAnalysis(), detectedFrameworks, nativeLibraries, usedLibraries;
    if apkEntries.None? {
      return;
    }
    var entries := apkEntries.value;
    var i := 0;
    while i < |entries|
      invariant 0 <= i <= |entries|
      invariant analysis == ScanFlags(ApkAnalysis(), entries, i)
      invariant frameworksOut == ScanLabels(detectedFrameworks, entries, i)
      invariant nativesOut == ScanNativeLibraries(nativeLibraries, entries, i)
      invariant usedOut == ScanUsedLibraries(usedLibraries, entries, i)
    {
      var entryName := entries[i];
      analysis, frameworksOut := CheckFrameworks(entryName, analysis, frameworksOut);
      if StartsWith(entryName, "lib/") && EndsWith(entryName, ".so") {
        var libName := SubstringAfterLast(entryName, '/');
        if libName !in nativesOut { nativesOut := nativesOut + [libName]; }
      }
      usedOut := AnalyzeLibrariesByType(entryName, usedOut);
      i := i + 1;
    }
  }

  // ---------------------------------------------------------------------------------------------
  // After the scan: `determineAppType`, `addCommonLibrariesForAppType`, `calculateConfidence`
  // ---------------------------------------------------------------------------------------------

  /** Evidence for a framework: its flag was set or its label was recorded. */
  predicate Evidence(frameworks: seq<string>, flags: ApkAnalysis, f: Framework) {
    Flag(flags, f) || Label(f) in frameworks
  }

  /** `determineAppType`: the first framework, in the order Flutter, React Native, Xamarin, Cordova,
      Unity, for which there is evidence, and native Android when there is none. */
  function DetermineAppType(frameworks: seq<string>, flags: ApkAnalysis): (t: AppType)
    ensures !t.Unknown? && !t.Ionic? && !t.Kmp?
    ensures t.NativeAndroid? <==> forall f: Framework :: !Evidence(frameworks, flags, f)
    ensures !t.NativeAndroid? ==> Evidence(frameworks, flags, t)
    ensures !t.NativeAndroid? ==> forall g: Framework :: Rank(g) < Rank(t) ==> !Evidence(frameworks, flags, g)
  {
    if Evidence(frameworks, flags, Flutter) then Flutter
    else if Evidence(frameworks, flags, ReactNative) then ReactNative
    else if Evidence(frameworks, flags, Xamarin) then Xamarin
    else if Evidence(frameworks, flags, Cordova) then Cordova
    else if Evidence(frameworks, flags, Unity) then Unity
    else NativeAndroid
  }

  /** The libraries `addCommonLibrariesForAppType` adds for each type; `Ionic` and `Unknown` share the
      fallback branch. */
  function CommonLibraries(t: AppType): (r: seq<string>)
    ensures |r| == if t.Ionic? || t.Unknown? then 2 else 3
  {
    match t
    case Flutter => ["http", "shared_preferences", "path_provider"]
    case ReactNative => ["react-navigation", "react-native-vector-icons", "react-native-gesture-handler"]
    case NativeAndroid => ["androidx.lifecycle", "androidx.navigation", "retrofit2"]
    case Xamarin => ["Xamarin.Android", "Xamarin.Forms", "Newtonsoft.Json"]
    case Cordova => ["cordova-plugin-device", "cordova-plugin-camera", "cordova-plugin-file"]
    case Unity => ["UnityEngine", "Unity.Ads", "Unity.Analytics"]
    case Kmp => ["kotlinx.coroutines", "kotlinx.serialization", "ktor"]
    case _ => ["androidx.lifecycle", "okhttp3"]
  }

  /** `names.forEach { addLibraryIfNotExists(it, libs) }`, the loop of `addCommonLibrariesForAppType`. */
  method AddEachIfAbsent(libs: seq<string>, names: seq<string>) returns (r: seq<string>)
    ensures r == AddAllIfAbsent(libs, names)
  {
    r := libs;
    for i := 0 to |names|
      invariant r == AddAllIfAbsent(libs, names[..i])
    {
      AddAllIfAbsentStep(libs, names, i);
      r := AddIfAbsent(r, names[i]);
    }
    assert names[..|names|] == names;
  }

  /** `addCommonLibrariesForAppType`: afterwards all of the type's common libraries are present, what
      was there keeps its place, and nothing is duplicated. */
  method AddCommonLibrariesForAppType(appType: AppType, usedLibraries: seq<string>) returns (r: seq<string>)
    ensures r == AddAllIfAbsent(usedLibraries, CommonLibraries(appType))
    ensures Extends(usedLibraries, r)
    ensures forall x :: x in r <==> x in usedLibraries || x in CommonLibraries(appType)
  {
    r := AddEachIfAbsent(usedLibraries, CommonLibraries(appType));
  }

  /** A second `addCommonLibrariesForAppType` with the same type changes nothing. */
  lemma AddCommonLibrariesIdempotent(appType: AppType, usedLibraries: seq<string>)
    ensures var once := AddAllIfAbsent(usedLibraries, CommonLibraries(appType));
      AddAllIfAbsent(once, CommonLibraries(appType)) == once
  {
  }

  /** `calculateConfidence`: a known type is sure (90) with a detected framework and fairly sure (70)
      without; an unknown type is only as sure as its inferred libraries make it (50 or 20). */
  function CalculateConfidence(appType: AppType, frameworkCount: nat, libraryCount: nat): (c: Confidence)
    ensures c.High? <==> !appType.Unknown? && frameworkCount > 0
    ensures c.Medium? <==> !appType.Unknown? && frameworkCount == 0
    ensures c.Low? <==> appType.Unknown? && libraryCount > 0
    ensures c.Minimal? <==> appType.Unknown? && libraryCount == 0
  {
    if !appType.Unknown? && frameworkCount > 0 then High
    else if !appType.Unknown? then Medium
    else if libraryCount > 0 then Low
    else Minimal
  }

  /** Since `determineAppType` never answers `Unknown`, an analysed app is rated 90 or 70, by whether a
      framework was detected. */
  lemma AnalyzedConfidence(frameworks: seq<string>, flags: ApkAnalysis, libraryCount: nat)
    ensures CalculateConfidence(DetermineAppType(frameworks, flags), |frameworks|, libraryCount).Percent() ==
      if frameworks != [] then 90 else 70
  {
  }

  // ---------------------------------------------------------------------------------------------
  // `analyzeApp`
  // ---------------------------------------------------------------------------------------------

  /** What the package manager reports for a package: its requested permissions (an absent array is
      empty) and the entry names of its archive as far as they could be read (`None` when the archive
      has no path or cannot be opened). */
  datatype PackageData = PackageData(requestedPermissions: seq<string>, apkEntries: Option<seq<string>>)

  /** The entry names the scan sees; `None` when `getPackageInfo` failed or the archive was not read. */
  function ScannedEntries(package: Option<PackageData>): Option<seq<string>> {
    if package.Some? then package.value.apkEntries else None
  }

  function FlagsOf(a: AppAnalysis): ApkAnalysis {
    ApkAnalysis(a.hasFlutterAssets, a.hasReactNativeAssets, a.hasXamarinAssets, a.hasCordovaAssets, a.hasUnityAssets)
  }

  /** A scan that starts from empty lists leaves each of them free of duplicates. */
  lemma ScanFromEmptyDistinct(entryNames: seq<string>)
    ensures Distinct(ScanLabels([], entryNames, |entryNames|))
    ensures Distinct(ScanNativeLibraries([], entryNames, |entryNames|))
    ensures Distinct(ScanUsedLibraries([], entryNames, |entryNames|))
  {
    assert Distinct([]);
  }

  /** A scan that starts from empty lists sets a framework's flag exactly when some entry carries one
      of its signatures. */
  lemma ScanFromEmptyFlags(entryNames: seq<string>)
    ensures forall f: Framework :: Flag(ScanFlags(ApkAnalysis(), entryNames, |entryNames|), f) <==>
      (exists j :: 0 <= j < |entryNames| && Detects(f, entryNames[j]))
  {
    forall f: Framework
      ensures Flag(ScanFlags(ApkAnalysis(), entryNames, |entryNames|), f) <==>
        (exists j :: 0 <= j < |entryNames| && Detects(f, entryNames[j]))
    {
      ScanFlagsDetect(ApkAnalysis(), entryNames, |entryNames|, f);
      DetectedInSomeEntry(f, entryNames, |entryNames|);
    }
  }

  /** A scan that starts from empty lists records only the five labels, and a framework's label
      exactly when some entry carries one of its signatures. */
  lemma ScanFromEmptyLabels(entryNames: seq<string>)
    ensures forall x :: x in ScanLabels([], entryNames, |entryNames|) ==> x in AllLabels
    ensures forall f: Framework :: Label(f) in ScanLabels([], entryNames, |entryNames|) <==>
      (exists j :: 0 <= j < |entryNames| && Detects(f, entryNames[j]))
  {
    ScanLabelsOnlyLabels([], entryNames, |entryNames|);
    forall f: Framework
      ensures Label(f) in ScanLabels([], entryNames, |entryNames|) <==>
        (exists j :: 0 <= j < |entryNames| && Detects(f, entryNames[j]))
    {
      ScanLabelsDetect([], entryNames, |entryNames|, f);
      DetectedInSomeEntry(f, entryNames, |entryNames|);
    }
  }

  /** The four results of the entry scan. */
  datatype ScanOutcome = ScanOutcome(
    flags: ApkAnalysis, frameworks: seq<string>, nativeLibraries: seq<string>, usedLibraries: seq<string>)

  /** What every scan from empty lists guarantees. */
  predicate ValidOutcome(s: ScanOutcome) {
    && Distinct(s.frameworks) && Distinct(s.nativeLibraries) && Distinct(s.usedLibraries)
    && (forall x :: x in s.frameworks ==> x in AllLabels)
    && (forall f: Framework :: Flag(s.flags, f) <==> Label(f) in s.frameworks)
  }

  /** The entry scan of `analyzeApp`, which starts from empty lists and no flags. */
  function Scan(entryNames: seq<string>): (s: ScanOutcome)
    ensures ValidOutcome(s)
  {
    var n := |entryNames|;
    ScanFromEmptyDistinct(entryNames);
    ScanFromEmptyFlags(entryNames);
    ScanFromEmptyLabels(entryNames);
    ScanOutcome(
      ScanFlags(ApkAnalysis(), entryNames, n), ScanLabels([], entryNames, n),
      ScanNativeLibraries([], entryNames, n), ScanUsedLibraries([], entryNames, n))
  }

  /** The entry names `analyzeApp` scans: none when the package or its archive could not be read. */
  function EntriesToScan(package: Option<PackageData>): seq<string> {
    if ScannedEntries(package).Some? then ScannedEntries(package).value else []
  }

  /** The tail of `analyzeApp`: type, common libraries, confidence and the returned record. */
  function Assemble(appInfo: AppInfo, permissions: seq<string>, s: ScanOutcome): (a: AppAnalysis)
    ensures a.appInfo == appInfo.(appType := a.appInfo.appType)
    ensures a.detectedFrameworks == s.frameworks && a.nativeLibraries == s.nativeLibraries
    ensures a.permissions == permissions && FlagsOf(a) == s.flags
    ensures Extends(s.usedLibraries, a.usedLibraries)
    ensures forall x :: x in a.usedLibraries <==> x in s.usedLibraries || x in CommonLibraries(a.appInfo.appType)
  {
    var appType := DetermineAppType(s.frameworks, s.flags);
    var used := AddAllIfAbsent(s.usedLibraries, CommonLibraries(appType));
    AppAnalysis(
      appInfo.(appType := appType), s.frameworks, s.nativeLibraries, used, permissions,
      s.flags.hasFlutterAssets, s.flags.hasReactNativeAssets, s.flags.hasXamarinAssets, s.flags.hasCordovaAssets,
      s.flags.hasUnityAssets, CalculateConfidence(appType, |s.frameworks|, |used|))
  }

  /** The result of `analyzeApp`. With no entry names to scan the lists stay empty and every flag false,
      which is what a scan of no entries leaves. */
  function Analysis(appInfo: AppInfo, package: Option<PackageData>): (a: AppAnalysis)
    ensures a.appInfo == appInfo.(appType := a.appInfo.appType)
    ensures a.permissions == if package.Some? then package.value.requestedPermissions else []
    ensures ScannedEntries(package).None? ==> a.detectedFrameworks == [] && a.nativeLibraries == []
  {
    Assemble(appInfo, if package.Some? then package.value.requestedPermissions else [], Scan(EntriesToScan(package)))
  }

  /** What the tail of `analyzeApp` makes of any valid scan: only the type of the app changes, and it is
      a detected framework or native Android; the lists stay free of duplicates; labels and flags agree;
      the type's common libraries are present; the confidence is 90 with a detected framework and 70
      without. */
  lemma AssembleInvariants(appInfo: AppInfo, permissions: seq<string>, s: ScanOutcome)
    requires ValidOutcome(s)
    ensures var a := Assemble(appInfo, permissions, s);
      && a.appInfo == appInfo.(appType := a.appInfo.appType)
      && a.appInfo.appType == DetermineAppType(a.detectedFrameworks, FlagsOf(a))
      && !a.appInfo.appType.Unknown? && !a.appInfo.appType.Ionic? && !a.appInfo.appType.Kmp?
      && Distinct(a.detectedFrameworks) && Distinct(a.nativeLibraries) && Distinct(a.usedLibraries)
      && (forall x :: x in a.detectedFrameworks ==> x in AllLabels)
      && (forall f: Framework :: Flag(FlagsOf(a), f) <==> Label(f) in a.detectedFrameworks)
      && (forall x :: x in CommonLibraries(a.appInfo.appType) ==> x in a.usedLibraries)
      && a.analysisConfidence == if a.detectedFrameworks != [] then High else Medium
  {
    assert FlagsOf(Assemble(appInfo, permissions, s)) == s.flags;
  }

  /** Every analysis has the properties of `AssembleInvariants`. */
  lemma AnalysisInvariants(appInfo: AppInfo, package: Option<PackageData>)
    ensures var a := Analysis(appInfo, package);
      && a.appInfo == appInfo.(appType := a.appInfo.appType)
      && a.appInfo.appType == DetermineAppType(a.detectedFrameworks, FlagsOf(a))
      && !a.appInfo.appType.Unknown? && !a.appInfo.appType.Ionic? && !a.appInfo.appType.Kmp?
      && Distinct(a.detectedFrameworks) && Distinct(a.nativeLibraries) && Distinct(a.usedLibraries)
      && (forall x :: x in a.detectedFrameworks ==> x in AllLabels)
      && (forall f: Framework :: Flag(FlagsOf(a), f) <==> Label(f) in a.detectedFrameworks)
      && (forall x :: x in CommonLibraries(a.appInfo.appType) ==> x in a.usedLibraries)
      && a.analysisConfidence == if a.detectedFrameworks != [] then High else Medium
  {
    AssembleInvariants(appInfo, if package.Some? then package.value.requestedPermissions else [],
      Scan(EntriesToScan(package)));
  }

  /** An analysis reports a framework exactly when one of the scanned entry names carries one of its
      signatures. */
  lemma AnalysisFrameworks(appInfo: AppInfo, package: Option<PackageData>, f: Framework)
    ensures var entryNames := EntriesToScan(package);
      Label(f) in Analysis(appInfo, package).detectedFrameworks <==>
        exists j :: 0 <= j < |entryNames| && Detects(f, entryNames[j])
  {
    ScanFromEmptyLabels(EntriesToScan(package));
  }

  /** An analysis reports exactly the file names of the scanned `.so` entries under `lib/` as native
      libraries. */
  lemma AnalysisNativeLibraries(appInfo: AppInfo, package: Option<PackageData>, x: string)
    ensures var entryNames := EntriesToScan(package);
      x in Analysis(appInfo, package).nativeLibraries <==>
        exists j :: 0 <= j < |entryNames| && ProvidesNativeLibrary(entryNames[j], x)
  {
    var entryNames := EntriesToScan(package);
    ScanNativeLibrariesFound([], entryNames, |entryNames|, x);
  }

  /** When the package cannot be looked up, or its archive not read, the app is native Android with
      nothing detected and just the common Android libraries. */
  lemma AnalysisWithoutArchive(appInfo: AppInfo, package: Option<PackageData>)
    requires ScannedEntries(package).None?
    ensures var a := Analysis(appInfo, package);
      && a.detectedFrameworks == [] && a.nativeLibraries == [] && FlagsOf(a) == ApkAnalysis()
      && a.appInfo.appType == NativeAndroid
      && (forall x :: x in a.usedLibraries <==> x in CommonLibraries(NativeAndroid))
      && a.analysisConfidence == Medium
  {
    assert EntriesToScan(package) == [];
    var s := Scan([]);
    assert s == ScanOutcome(ApkAnalysis(), [], [], []);
    assert DetermineAppType([], ApkAnalysis()) == NativeAndroid by {
      assert !Evidence([], ApkAnalysis(), Flutter) && !Evidence([], ApkAnalysis(), ReactNative);
      assert !Evidence([], ApkAnalysis(), Xamarin) && !Evidence([], ApkAnalysis(), Cordova);
      assert !Evidence([], ApkAnalysis(), Unity);
    }
  }

  /** `analyzeApp` after the package lookup: scan the archive (if any), pick the type, top up the
      libraries, rate the confidence, and return the app with its type filled in. */
  method AnalyzeApp(appInfo: AppInfo, package: Option<PackageData>) returns (result: AppAnalysis)
    ensures result == Analysis(appInfo, package)
  {
    var detectedFrameworks, nativeLibraries, usedLibraries, permissions := [], [], [], [];
    var flags := ApkAnalysis();
    if package.Some? {
      permissions := package.value.requestedPermissions;
      flags, detectedFrameworks, nativeLibraries, usedLibraries :=
        AnalyzeApkContents(package.value.apkEntries, detectedFrameworks, nativeLibraries, usedLibraries);
    }
    var appType := DetermineAppType(detectedFrameworks, flags);
    usedLibraries := AddCommonLibrariesForAppType(appType, usedLibraries);
    var confidence := CalculateConfidence(appType, |detectedFrameworks|, |usedLibraries|);
    result := AppAnalysis(
      appInfo.(appType := appType), detectedFrameworks, nativeLibraries, usedLibraries, permissions,
      flags.hasFlutterAssets, flags.hasReactNativeAssets, flags.hasXamarinAssets, flags.hasCordovaAssets,
      flags.hasUnityAssets, confidence);
  }
}
