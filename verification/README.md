# AppLens core in Dafny

AppLens is an Android app. It lists the installed apps and guesses which cross-platform framework
each one was built with. This project models two of its parts and proves properties of them.

- **The archive-entry classifier of `AppAnalyzer`** (module `Analyzer`, file `analyzer.dfy`).
  - `analyzeApkContents` walks the entry names of an app's package archive once. For each name it
    runs five framework checks: Flutter, React Native, Xamarin, Cordova/PhoneGap and Unity. Each
    check sets a flag and records the framework's label once. The walk also collects the file names
    of the `.so` entries under `lib/`. It passes each name to `analyzeLibrariesByType`, which runs
    the helper of the first matching framework and then the Android and Kotlin Multiplatform helpers.
  - After the walk, `analyzeApp` works in three steps:
    1. `determineAppType` picks the type by fixed priority.
    2. `addCommonLibrariesForAppType` tops up the inferred libraries.
    3. `calculateConfidence` rates the result.
  - The three `MutableList`s of the source are `seq<string>` values here. Each step takes them in
    and hands them back.
  - The entry walk and the common-library top-up are methods with loops. Each is proved equal to a
    specification function.
- **The list screen's `AppListViewModel`** (module `AppList`, file `viewmodel.dfy`).
  - `filterAndSortApps` filters by app type and by search query, then sorts by one of six orders.
  - The view model is a class. Its setters replace one field each.
- **Supporting files.** `model.dfy` (module `AppModel`) holds the records of `model/AppInfo.kt` and
  `model/FilterOptions.kt`, with their defaults. `strings.dfy` (module `Strings`) holds the part of
  Kotlin's `String` API the code relies on.

Properties proved:
- The three lists the entry scan builds (framework labels, native libraries, inferred libraries) are
  append-only and free of duplicates.
- The framework labels are exactly those of the frameworks whose signatures occur in some entry
  name, and a framework's flag is set exactly when its label is recorded.
- The native libraries are exactly the file names of the `.so` entries under `lib/`.
- At most one framework helper runs per entry. What an entry adds to the libraries does not depend
  on what is already in the list.
- The chosen app type is the first framework with evidence, or native Android. It is never
  `Unknown`, `Ionic` or `Kmp`.
- The common libraries of the chosen type are always present, and adding them twice changes nothing.
- The confidence is 90 when a framework was detected and 70 otherwise.
- The shown app list is a permutation of exactly the apps that pass both filters, with their
  multiplicities. It is sorted by the chosen order, and the sort is stable.

## Model

| member | source | states |
|---|---|---|
| Analyzer.AddIfAbsent | app/src/main/java/kr/bluevisor/applens/analyzer/AppAnalyzer.kt:432-436 | the name is present afterwards; the old list is a prefix of the new one and gains at most one element; a list that already holds the name is unchanged; a duplicate-free list stays duplicate-free; the elements are the old ones plus the name |
| Analyzer.AddAllIfAbsent | app/src/main/java/kr/bluevisor/applens/analyzer/AppAnalyzer.kt:507-509 | adding names one by one keeps the old list as a prefix and keeps a duplicate-free list duplicate-free; the elements are the old ones plus the names; when all names are already present, nothing changes |
| Analyzer.DistinctPairwise | app/src/main/java/kr/bluevisor/applens/analyzer/AppAnalyzer.kt:432-436 | "no duplicates" as kept by the lists means that no two positions hold the same element |
| Analyzer.AddIfAbsentIdempotent | app/src/main/java/kr/bluevisor/applens/analyzer/AppAnalyzer.kt:432-436 | adding the same library twice is the same as adding it once |
| Analyzer.AddAllIfAbsentSnoc | app/src/main/java/kr/bluevisor/applens/analyzer/AppAnalyzer.kt:507-509 | a `forEach` over a list with one more name ends with one more `addLibraryIfNotExists` |
| Analyzer.FirstMatch | app/src/main/java/kr/bluevisor/applens/analyzer/AppAnalyzer.kt:395-410 | a `when` over `contains` branches yields nothing exactly when no pattern occurs; otherwise it yields the value of a pattern that occurs and that no earlier pattern precedes |
| Analyzer.LabelsDistinct | app/src/main/java/kr/bluevisor/applens/analyzer/AppAnalyzer.kt:215-257 | the five framework labels are pairwise different, so a label names exactly one framework |
| Analyzer.AnalyzeFlutterLibraries | app/src/main/java/kr/bluevisor/applens/analyzer/AppAnalyzer.kt:317-343 | append-only and keeps a duplicate-free list duplicate-free; adds exactly the packages of the table whose asset directory occurs in the entry name |
| Analyzer.FlutterLibrariesFrom | app/src/main/java/kr/bluevisor/applens/analyzer/AppAnalyzer.kt:338-342 | the same pass over any `libName to pattern` table adds exactly the names whose pattern occurs |
| Analyzer.AnalyzeReactNativeLibraries | app/src/main/java/kr/bluevisor/applens/analyzer/AppAnalyzer.kt:345-390 | append-only and keeps a duplicate-free list duplicate-free; adds exactly the packages whose pattern shows in the entry name, or whose name shows in the file name of a native library entry |
| Analyzer.ReactNativeLibrariesFrom | app/src/main/java/kr/bluevisor/applens/analyzer/AppAnalyzer.kt:367-389 | the two passes over any table: the pattern pass for every entry, plus the file-name pass for `.so` entries under `lib/` |
| Analyzer.ReactNativeSoAddsAll | app/src/main/java/kr/bluevisor/applens/analyzer/AppAnalyzer.kt:381-388 | because `&&` binds tighter than `\|\|`, a native library whose file name contains "react" and "native" makes every package of the table present |
| Analyzer.AnalyzeAndroidLibraries | app/src/main/java/kr/bluevisor/applens/analyzer/AppAnalyzer.kt:392-430 | adds at most one library. A `META-INF/` entry adds the library of its first matching pattern. A native library entry adds that of the first pattern matching its lower-cased file name. Nothing else is added |
| Analyzer.AnalyzeXamarinLibraries | app/src/main/java/kr/bluevisor/applens/analyzer/AppAnalyzer.kt:438-445 | adds at most the assembly name of an entry under `assemblies/`, and only when it is non-empty |
| Analyzer.AnalyzeCordovaLibraries | app/src/main/java/kr/bluevisor/applens/analyzer/AppAnalyzer.kt:447-461 | adds exactly the known plugins the entry names, and only for entries under `assets/www/plugins/` |
| Analyzer.AnalyzeUnityLibraries | app/src/main/java/kr/bluevisor/applens/analyzer/AppAnalyzer.kt:463-470 | adds at most the non-empty managed assembly name of an entry under `assets/bin/Data/Managed/` |
| Analyzer.AnalyzeKmpLibraries | app/src/main/java/kr/bluevisor/applens/analyzer/AppAnalyzer.kt:472-483 | adds exactly the listed libraries whose dotted name, written with `/`, occurs in the entry name |
| Analyzer.LibraryBranch | app/src/main/java/kr/bluevisor/applens/analyzer/AppAnalyzer.kt:292-308 | the selected framework's helper pattern occurs, and no framework earlier in the `when` matches; nothing is selected exactly when no pattern matches |
| Analyzer.FrameworkLibraries | app/src/main/java/kr/bluevisor/applens/analyzer/AppAnalyzer.kt:293-307 | each framework helper is append-only and adds exactly what that framework's helper finds in the entry name |
| Analyzer.AnalyzeLibrariesByType | app/src/main/java/kr/bluevisor/applens/analyzer/AppAnalyzer.kt:286-315 | append-only and keeps a duplicate-free list duplicate-free; adds exactly the findings of the first matching framework helper (and no other framework's), plus those of the Android and Kotlin Multiplatform helpers, whatever the list held before |
| Analyzer.AddLabelIf | app/src/main/java/kr/bluevisor/applens/analyzer/AppAnalyzer.kt:209-218 | one framework check adds the label exactly when a signature occurs, and never twice |
| Analyzer.DetectLabels | app/src/main/java/kr/bluevisor/applens/analyzer/AppAnalyzer.kt:209-259 | after the five checks a framework's label is present exactly when it was before or a signature occurs; only labels are added; no duplicates |
| Analyzer.DetectFlags | app/src/main/java/kr/bluevisor/applens/analyzer/AppAnalyzer.kt:209-259 | after the five checks each flag is its old value or'ed with "a signature of that framework occurs" |
| Analyzer.CollectNativeLibrary | app/src/main/java/kr/bluevisor/applens/analyzer/AppAnalyzer.kt:261-267 | the native library list gains exactly the file name of a `.so` entry under `lib/`, once |
| Analyzer.ScanFlags | app/src/main/java/kr/bluevisor/applens/analyzer/AppAnalyzer.kt:195-259 | across the walk a flag, once set, stays set |
| Analyzer.ScanLabels | app/src/main/java/kr/bluevisor/applens/analyzer/AppAnalyzer.kt:205-259 | across the walk the label list is append-only and stays duplicate-free |
| Analyzer.ScanNativeLibraries | app/src/main/java/kr/bluevisor/applens/analyzer/AppAnalyzer.kt:205-267 | across the walk the native library list is append-only and stays duplicate-free |
| Analyzer.ScanUsedLibraries | app/src/main/java/kr/bluevisor/applens/analyzer/AppAnalyzer.kt:205-271 | across the walk the library list is append-only and stays duplicate-free |
| Analyzer.DetectedInSomeEntry | app/src/main/java/kr/bluevisor/applens/analyzer/AppAnalyzer.kt:205-259 | "detected in the first n entries", built up entry by entry, means that some entry among them carries a signature |
| Analyzer.ScanFlagsDetect | app/src/main/java/kr/bluevisor/applens/analyzer/AppAnalyzer.kt:205-259 | after n entries a flag is set exactly when it was set initially or one of them carries a signature of its framework |
| Analyzer.ScanLabelsDetect | app/src/main/java/kr/bluevisor/applens/analyzer/AppAnalyzer.kt:205-259 | after n entries a label is present exactly when it was initially or one of them carries a signature of its framework |
| Analyzer.ScanLabelsOnlyLabels | app/src/main/java/kr/bluevisor/applens/analyzer/AppAnalyzer.kt:215-257 | the walk adds nothing but the five labels |
| Analyzer.ScanNativeLibrariesFound | app/src/main/java/kr/bluevisor/applens/analyzer/AppAnalyzer.kt:261-267 | after n entries a name is a native library exactly when it was initially or it is the file name of one of those `.so` entries under `lib/` |
| Analyzer.CheckFramework | app/src/main/java/kr/bluevisor/applens/analyzer/AppAnalyzer.kt:209-218 | one check sets the flag when a signature occurs and records the label as `AddLabelIf` does |
| Analyzer.CheckFrameworks | app/src/main/java/kr/bluevisor/applens/analyzer/AppAnalyzer.kt:209-259 | the five checks in source order compute `DetectFlags` and `DetectLabels` |
| Analyzer.AnalyzeApkContents | app/src/main/java/kr/bluevisor/applens/analyzer/AppAnalyzer.kt:185-284 | with no archive, all flags are false and the lists are untouched. Otherwise the loop's flags and lists are those of the walk over all entry names read |
| Analyzer.DetermineAppType | app/src/main/java/kr/bluevisor/applens/analyzer/AppAnalyzer.kt:485-501 | never `Unknown`, `Ionic` or `Kmp`; native Android exactly when no framework has a flag or label; otherwise a framework with evidence and no evidence for any framework of higher priority |
| Analyzer.CommonLibraries | app/src/main/java/kr/bluevisor/applens/analyzer/AppAnalyzer.kt:503-555 | three common libraries for every named type, two in the fallback branch taken by `Ionic` and `Unknown` |
| Analyzer.AddEachIfAbsent | app/src/main/java/kr/bluevisor/applens/analyzer/AppAnalyzer.kt:507-509 | the `forEach` loop computes `AddAllIfAbsent` |
| Analyzer.AddCommonLibrariesForAppType | app/src/main/java/kr/bluevisor/applens/analyzer/AppAnalyzer.kt:503-555 | afterwards every common library of the type is present; the old list is a prefix; a duplicate-free list stays duplicate-free; nothing else is added |
| Analyzer.AddCommonLibrariesIdempotent | app/src/main/java/kr/bluevisor/applens/analyzer/AppAnalyzer.kt:503-555 | topping up twice with the same type changes nothing the second time |
| Analyzer.CalculateConfidence | app/src/main/java/kr/bluevisor/applens/analyzer/AppAnalyzer.kt:557-564 | each of the four levels, in both directions: 90 for a known type with frameworks, 70 for a known type without, 50 for an unknown type with libraries, 20 otherwise |
| AppModel.Confidence.Percent | app/src/main/java/kr/bluevisor/applens/analyzer/AppAnalyzer.kt:557-564 | every confidence lies between 20 and 90 percent |
| Analyzer.AnalyzedConfidence | app/src/main/java/kr/bluevisor/applens/analyzer/AppAnalyzer.kt:148-160 | since the chosen type is never `Unknown`, an analysed app is rated 90 with a detected framework and 70 without |
| Analyzer.ScanFromEmptyDistinct | app/src/main/java/kr/bluevisor/applens/analyzer/AppAnalyzer.kt:95-142 | the three lists `analyzeApp` starts empty stay free of duplicates |
| Analyzer.ScanFromEmptyFlags | app/src/main/java/kr/bluevisor/applens/analyzer/AppAnalyzer.kt:101-142 | each flag returned by the walk is set exactly when some entry name carries a signature of its framework |
| Analyzer.ScanFromEmptyLabels | app/src/main/java/kr/bluevisor/applens/analyzer/AppAnalyzer.kt:96-142 | the detected frameworks are among the five labels, and a label is present exactly when some entry name carries a signature of its framework |
| Analyzer.Scan | app/src/main/java/kr/bluevisor/applens/analyzer/AppAnalyzer.kt:95-142 | the walk from empty lists gives duplicate-free lists, only known labels, and flags that agree with the labels |
| Analyzer.Assemble | app/src/main/java/kr/bluevisor/applens/analyzer/AppAnalyzer.kt:148-174 | the tail of `analyzeApp` changes only the app's type; it passes the detected frameworks, native libraries, flags and permissions through; and it only appends to the inferred libraries, without duplicates, exactly the common libraries of the chosen type |
| Analyzer.AssembleInvariants | app/src/main/java/kr/bluevisor/applens/analyzer/AppAnalyzer.kt:148-175 | the returned record is the app with only its type changed. That type is `determineAppType` of the returned flags and labels, and never `Unknown`, `Ionic` or `Kmp`. The lists stay duplicate-free; flags agree with labels; the type's common libraries are present; confidence is High with a framework and Medium without |
| Analyzer.Analysis | app/src/main/java/kr/bluevisor/applens/analyzer/AppAnalyzer.kt:95-175 | `analyzeApp` changes only the app's type, reports the requested permissions (none when the lookup fails), and reports no frameworks or native libraries when there is no archive to scan |
| Analyzer.AnalysisInvariants | app/src/main/java/kr/bluevisor/applens/analyzer/AppAnalyzer.kt:95-175 | every result of `analyzeApp` has the properties of `AssembleInvariants`: only the type changes; it is `determineAppType` of the reported flags and frameworks, never `Unknown`, `Ionic` or `Kmp`; the three lists are duplicate-free; only the five labels appear and they agree with the flags; the type's common libraries are present; the confidence is High with a framework and Medium without |
| Analyzer.AnalysisFrameworks | app/src/main/java/kr/bluevisor/applens/analyzer/AppAnalyzer.kt:95-175 | `analyzeApp` reports a framework exactly when a scanned entry name carries one of its signatures |
| Analyzer.AnalysisNativeLibraries | app/src/main/java/kr/bluevisor/applens/analyzer/AppAnalyzer.kt:95-175 | `analyzeApp` reports as native libraries exactly the file names of the scanned `.so` entries under `lib/` |
| Analyzer.AnalysisWithoutArchive | app/src/main/java/kr/bluevisor/applens/analyzer/AppAnalyzer.kt:107-146 | when the package lookup fails or the archive has no path, the app is native Android with no frameworks, no native libraries, no flags, exactly the common Android libraries and confidence 70 |
| Analyzer.AnalyzeApp | app/src/main/java/kr/bluevisor/applens/analyzer/AppAnalyzer.kt:95-175 | the imperative `analyzeApp` computes `Analysis`, to which the lemmas above apply |
| Strings.SubstringAfterLastSuffix | app/src/main/java/kr/bluevisor/applens/analyzer/AppAnalyzer.kt:263 | `substringAfterLast` returns a suffix free of the delimiter, preceded by the delimiter unless it is the whole string |
| Strings.SubstringBeforeLastPrefix | app/src/main/java/kr/bluevisor/applens/analyzer/AppAnalyzer.kt:440 | `substringBeforeLast` returns the prefix before the last delimiter, or the whole string when the delimiter does not occur |
| Strings.ReplaceChar | app/src/main/java/kr/bluevisor/applens/analyzer/AppAnalyzer.kt:479 | replacing one character by another keeps the length and leaves none of the replaced character |
| Strings.ReplaceCharPositions | app/src/main/java/kr/bluevisor/applens/analyzer/AppAnalyzer.kt:479 | `replace` works position by position: each replaced character becomes the new one and every other character stays where it was |
| Strings.ReplaceCharConcat | app/src/main/java/kr/bluevisor/applens/analyzer/AppAnalyzer.kt:371 | replacement works piece by piece: replacing in a concatenation is replacing in each part |
| Strings.ReplaceCharRoundTrip | app/src/main/java/kr/bluevisor/applens/analyzer/AppAnalyzer.kt:371 | replacing by a character the string does not hold can be undone by replacing back |
| Strings.RemoveChar | app/src/main/java/kr/bluevisor/applens/analyzer/AppAnalyzer.kt:382 | the result holds none of the removed character, and every other character of the string occurs in it |
| Strings.RemoveCharAbsent | app/src/main/java/kr/bluevisor/applens/analyzer/AppAnalyzer.kt:382 | removing a character that does not occur leaves the string unchanged |
| Strings.RemoveCharConcat | app/src/main/java/kr/bluevisor/applens/analyzer/AppAnalyzer.kt:382 | removal works piece by piece: together with the two rows above, the result is the string's other characters, in order and with their multiplicity |
| AppList.LowerCharWhitespace | app/src/main/java/kr/bluevisor/applens/viewmodel/AppListViewModel.kt:87-88 | lower-casing a character neither creates nor removes whitespace, so the blank test of a query does not depend on case |
| AppList.SearchCaseInsensitive | app/src/main/java/kr/bluevisor/applens/viewmodel/AppListViewModel.kt:88-94 | the search is case-insensitive: two queries that lower-case to the same string let exactly the same apps through |
| Strings.LexLeTotal | app/src/main/java/kr/bluevisor/applens/viewmodel/AppListViewModel.kt:98-99 | any two strings are comparable by `compareTo` |
| Strings.LexLeTransitive | app/src/main/java/kr/bluevisor/applens/viewmodel/AppListViewModel.kt:98-99 | `compareTo <= 0` is transitive |
| AppList.TypeFilter | app/src/main/java/kr/bluevisor/applens/viewmodel/AppListViewModel.kt:82-85 | every app keeps its multiplicity if it passes the type filter and disappears otherwise |
| AppList.SearchFilter | app/src/main/java/kr/bluevisor/applens/viewmodel/AppListViewModel.kt:88-94 | every app keeps its multiplicity if the query is blank or its lower-cased name or package name contains the lower-cased query, and disappears otherwise |
| AppList.KeyLeTotal | app/src/main/java/kr/bluevisor/applens/viewmodel/AppListViewModel.kt:97-104 | under every sort order, any two apps are comparable |
| AppList.KeyLeTransitive | app/src/main/java/kr/bluevisor/applens/viewmodel/AppListViewModel.kt:97-104 | under every sort order, the order is transitive |
| AppList.Sort | app/src/main/java/kr/bluevisor/applens/viewmodel/AppListViewModel.kt:97-104 | sorting is a permutation |
| AppList.SortSorted | app/src/main/java/kr/bluevisor/applens/viewmodel/AppListViewModel.kt:97-104 | the sorted list is ordered by the chosen key and direction |
| AppList.SortStable | app/src/main/java/kr/bluevisor/applens/viewmodel/AppListViewModel.kt:97-104 | apps with equal keys keep their input order, as `sortedBy` and `sortedByDescending` promise |
| AppList.FilterAndSortApps | app/src/main/java/kr/bluevisor/applens/viewmodel/AppListViewModel.kt:78-107 | the result holds every input app that passes both filters, as often as it occurs in the input, and no other app |
| AppList.FilterAndSortSubMultiset | app/src/main/java/kr/bluevisor/applens/viewmodel/AppListViewModel.kt:78-107 | the result is a rearrangement of part of the input |
| AppList.FilterAndSortSound | app/src/main/java/kr/bluevisor/applens/viewmodel/AppListViewModel.kt:82-94 | every shown app is an input app. Under `UserAppsOnly` it is not a system app. Under a non-blank query its lower-cased name or package name contains the lower-cased query |
| AppList.FilterAndSortComplete | app/src/main/java/kr/bluevisor/applens/viewmodel/AppListViewModel.kt:82-94 | every input app that passes both filters is shown |
| AppList.FilterAndSortKeepsAll | app/src/main/java/kr/bluevisor/applens/viewmodel/AppListViewModel.kt:83-88 | under `All` with a blank query the result is a permutation of the input |
| AppList.FilterAndSortOrdered | app/src/main/java/kr/bluevisor/applens/viewmodel/AppListViewModel.kt:97-104 | the result is ordered by the chosen sort order |
| AppList.FilterAndSortStable | app/src/main/java/kr/bluevisor/applens/viewmodel/AppListViewModel.kt:97-104 | apps with equal keys are shown in the order the filters left them |
| AppList.SortOrderOnlyReorders | app/src/main/java/kr/bluevisor/applens/viewmodel/AppListViewModel.kt:97-104 | changing the sort order changes only the order of the shown apps |
| AppList.AppListViewModel.constructor | app/src/main/java/kr/bluevisor/applens/viewmodel/AppListViewModel.kt:22-31 | starts with no apps, the default filter state (by name, all apps, empty query) and scroll position 0 |
| AppList.AppListViewModel.Apps | app/src/main/java/kr/bluevisor/applens/viewmodel/AppListViewModel.kt:33-42 | the `apps` flow is part of the installed apps, rearranged, and ordered by the current sort order |
| AppList.AppListViewModel.SetApps | app/src/main/java/kr/bluevisor/applens/viewmodel/AppListViewModel.kt:46-59 | storing the app list (the installed apps, or none when listing fails) replaces only the apps; the shown list is then exactly the stored apps that pass both filters |
| AppList.AppListViewModel.UpdateSortOrder | app/src/main/java/kr/bluevisor/applens/viewmodel/AppListViewModel.kt:62-64 | replaces the sort order and nothing else; the shown apps are the same, rearranged |
| AppList.AppListViewModel.UpdateAppFilter | app/src/main/java/kr/bluevisor/applens/viewmodel/AppListViewModel.kt:66-68 | replaces the app filter and nothing else |
| AppList.AppListViewModel.UpdateSearchQuery | app/src/main/java/kr/bluevisor/applens/viewmodel/AppListViewModel.kt:70-72 | replaces the search query and nothing else |
| AppList.AppListViewModel.UpdateScrollPosition | app/src/main/java/kr/bluevisor/applens/viewmodel/AppListViewModel.kt:74-76 | stores exactly the given position; apps, filter state and the shown list are unchanged |

## Left out

- The package manager lookup (`getPackageInfo`, both `Build.VERSION` branches) is an input. It is
  `None` when the lookup throws. Otherwise it holds the requested permissions and the archive's
  entry names.
- Opening and reading the archive with `ZipFile` is an input too: the entry names in archive order,
  or `None` when there is no archive path or it cannot be opened. A read failure part-way through
  ends the loop, which the model expresses by giving only the names read before it. The string
  operations inside one iteration cannot fail, so no iteration stops half-way.
- The `appType` parameter of `analyzeApkContents` and `analyzeLibrariesByType` is never read in the
  source and is omitted.
- The `classes` / `.dex` branch of `analyzeAndroidLibraries` has an empty body. Nothing models it.
- Permissions are copied through unchanged, in order. No property is stated about them beyond that.
- `analysisConfidence` is a Kotlin `Float` (0.9, 0.7, 0.5, 0.2). It is modelled as a four-level
  `Confidence` whose `Percent()` gives the value in percent; no floating point is modelled.
- The app icon (`Drawable`) is not part of `AppInfo` here.
- `Long` and `Int` fields are unbounded integers. The source only stores and compares them, so no
  wrap-around arises.
- Strings.Lowercase: folds only 'A'..'Z', where Kotlin's `lowercase()` follows the full Unicode case
  mapping.
- Strings.IsWhitespace: covers Java's whitespace characters below U+0080 only.
- `compareTo` on strings is lexicographic order over `char` with a proper prefix first. Kotlin
  compares UTF-16 code units, which orders characters outside the Basic Multilingual Plane
  differently.
- AppList.Sort: the sort is an insertion sort, not the library's merge sort. Both are stable and
  order by the same key. The model proves the result is a permutation, is sorted, and keeps the
  input order among equal keys, but does not prove that these three facts determine the result
  uniquely.
- The coroutine and flow machinery is not modelled: `StateFlow`, `combine`/`stateIn` with its
  initial empty list, `viewModelScope` and `isLoading`. Of `loadApps` only its store into `_allApps` is modelled (`SetApps`). The `apps` flow is the function
  `Apps()` of the current state.
- Listing the installed apps (`getInstalledApps`), the app size computation, the detail screen's
  view model and the user interface are not part of this model.
