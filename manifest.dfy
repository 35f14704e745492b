/** The precache manifest of the service worker: the URLs it installs at
    install time (`toCache`) and the URLs it treats as its own (`staticAssets`).
    All of it is computed once, when the worker script starts, from data the
    bundler hands over (`files`, `build`, the version) and from the worker's
    own origin. */
module Manifest {

  /** The app routes that are always precached. */
  const Routes: seq<string> := ["/", "/settings"]

  /** Cross-origin assets needed for page load. They are already absolute and
      are precached as they are, without the origin prefix. */
  const CustomAssets: seq<string> := [
    "https://fonts.googleapis.com/css2?family=Inter:wght@400;500;600;700;800&display=swap",
    "https://unpkg.com/ress/dist/ress.min.css",
    "https://fonts.gstatic.com/s/inter/v11/UcC73FwrK3iLTeHuS_fvQtMwCp50KnMa1ZL7W0Q5nw.woff2"
  ]

  /** The name of the cache generation that belongs to a build version. */
  function CacheName(version: string): (name: string)
    ensures |name| == 5 + |version|
    ensures name[..5] == "cache" && name[5..] == version
  {
    "cache" + version
  }

  /** Distinct versions own distinct caches: a cache name determines its version. */
  lemma CacheNameInjective(v1: string, v2: string)
    ensures CacheName(v1) == CacheName(v2) ==> v1 == v2
  {
    if CacheName(v1) == CacheName(v2) {
      assert v1 == CacheName(v1)[5..];
    }
  }

  // ---------------------------------------------------------------------
  // The icon-exclusion pattern /\/icons\/(apple.*?|original.png)/
  // ---------------------------------------------------------------------

  /** The characters a regular-expression `.` does not match (no `s` flag). */
  predicate IsLineTerminator(c: char) {
    c == '\n' || c == '\r' || c == '\U{2028}' || c == '\U{2029}'
  }

  /** Without the `u` flag a `.` consumes one UTF-16 code unit. A character
      outside the Basic Multilingual Plane is two code units, so a single `.`
      followed by a literal can never match across it. */
  predicate IsSingleCodeUnit(c: char) {
    c as int < 0x1_0000
  }

  /** What one `.` of the pattern matches when the literal after it must
      start with the very next character. */
  predicate DotMatches(c: char) {
    IsSingleCodeUnit(c) && !IsLineTerminator(c)
  }

  /** `w` occurs in `s` starting at index `i`. */
  predicate OccursAt(s: string, i: nat, w: string) {
    i + |w| <= |s| && s[i..i + |w|] == w
  }

  /** The pattern matches `s` starting at index `i`. The pattern is not
      anchored; `apple.*?` matches as soon as `apple` is seen, and the `.` in
      `original.png` is any single UTF-16 code unit other than a line
      terminator. */
  predicate PatternAt(s: string, i: nat) {
    || OccursAt(s, i, "/icons/apple")
    || (&& OccursAt(s, i, "/icons/original")
        && i + 19 <= |s|
        && DotMatches(s[i + 15])
        && OccursAt(s, i + 16, "png"))
  }

  /** The static file `path` is one the worker refuses to precache. */
  predicate IconExcluded(path: string) {
    exists i: nat | i <= |path| :: PatternAt(path, i)
  }

  /** Any path that contains `/icons/apple` anywhere is excluded. */
  lemma AppleIconsExcluded(path: string, i: nat)
    requires OccursAt(path, i, "/icons/apple")
    ensures IconExcluded(path)
  {
    assert PatternAt(path, i);
  }

  /** `/icons/original`, then one Basic-Multilingual-Plane character that is
      not a line terminator, then `png`: excluded, whatever that character is. */
  lemma OriginalAnyCharExcluded(path: string, i: nat)
    requires OccursAt(path, i, "/icons/original")
    requires i + 19 <= |path| && DotMatches(path[i + 15])
    requires OccursAt(path, i + 16, "png")
    ensures IconExcluded(path)
  {
    assert PatternAt(path, i);
  }

  /** The unescaped `.` lets through more than `original.png`. */
  lemma UnescapedDotQuirk()
    ensures IconExcluded("/icons/original.png")
    ensures IconExcluded("/icons/original_png")
  {
    var a, b := "/icons/original.png", "/icons/original_png";
    assert a[0..15] == "/icons/original" && a[16..19] == "png";
    assert b[0..15] == "/icons/original" && b[16..19] == "png";
    assert PatternAt(a, 0) && PatternAt(b, 0);
  }

  /** A character the `.` cannot match between `original` and `png` (one
      outside the Basic Multilingual Plane, or a line terminator) leaves the
      path kept. */
  lemma DotNeedsOneCodeUnit(c: char)
    requires !DotMatches(c)
    ensures !IconExcluded("/icons/original" + [c] + "png")
  {
    var a := "/icons/original" + [c] + "png";
    assert |a| == 19;
    forall i: nat | i <= 19 ensures !PatternAt(a, i) {
      if i == 0 {
        assert a[15] == c;
        assert a[0..12][7] == 'o';
      } else if i + 12 <= 19 {
        // after index 0 the only `/` before `c` is at index 6, and it is followed by `o`
        assert a[i..i + 12][0] == a[i] && a[i..i + 12][1] == a[i + 1];
        assert a[i] != '/' || a[i + 1] != 'i';
      }
    }
  }

  /** The two kinds of character the `.` refuses. */
  lemma DotRefusals()
    ensures !IconExcluded("/icons/original\U{1F600}png")
    ensures forall c :: IsLineTerminator(c) ==> !IconExcluded("/icons/original" + [c] + "png")
  {
    assert "/icons/original\U{1F600}png" == "/icons/original" + ['\U{1F600}'] + "png";
    DotNeedsOneCodeUnit('\U{1F600}');
    forall c | IsLineTerminator(c) ensures !IconExcluded("/icons/original" + [c] + "png") {
      DotNeedsOneCodeUnit(c);
    }
  }

  /** Paths shorter than the shortest match are never excluded. */
  lemma ShortPathsKept(path: string)
    requires |path| < 12
    ensures !IconExcluded(path)
  {
    forall i: nat | i <= |path| ensures !PatternAt(path, i) {
    }
  }

  /** Only paths that contain `/icons/` can be excluded. */
  lemma ExcludedOnlyUnderIcons(path: string)
    requires IconExcluded(path)
    ensures exists i: nat | i <= |path| :: OccursAt(path, i, "/icons/")
  {
    var i: nat :| i <= |path| && PatternAt(path, i);
    if OccursAt(path, i, "/icons/apple") {
      assert path[i..i + 7] == path[i..i + 12][..7] == "/icons/apple"[..7];
    } else {
      assert path[i..i + 7] == path[i..i + 15][..7] == "/icons/original"[..7];
    }
    assert OccursAt(path, i, "/icons/");
  }

  // ---------------------------------------------------------------------
  // Filtering, prefixing and assembling the manifest
  // ---------------------------------------------------------------------

  /** The static files that survive the exclusion pattern, in their order. */
  function KeptFiles(files: seq<string>): (kept: seq<string>)
    ensures |kept| <= |files|
    ensures forall f :: f in kept <==> f in files && !IconExcluded(f)
  {
    if files == [] then []
    else if IconExcluded(files[0]) then KeptFiles(files[1..])
    else [files[0]] + KeptFiles(files[1..])
  }

  /** Filtering keeps every surviving file exactly as often as it was listed
      and drops every occurrence of an excluded one. */
  lemma {:induction false} KeptFilesCount(files: seq<string>, f: string)
    ensures multiset(KeptFiles(files))[f] == if IconExcluded(f) then 0 else multiset(files)[f]
  {
    if files != [] {
      KeptFilesCount(files[1..], f);
      assert files == [files[0]] + files[1..];
      assert multiset(files) == multiset([files[0]]) + multiset(files[1..]);
    }
  }

  /** Prefixes every path with the worker's origin, by concatenation. */
  function AddDomain(origin: string, assets: seq<string>): (urls: seq<string>)
    ensures |urls| == |assets|
    ensures forall i :: 0 <= i < |assets| ==> urls[i] == origin + assets[i]
  {
    if assets == [] then [] else [origin + assets[0]] + AddDomain(origin, assets[1..])
  }

  /** Prefixing distributes over concatenation, as `map` over a spread does. */
  lemma AddDomainAppend(origin: string, a: seq<string>, b: seq<string>)
    ensures AddDomain(origin, a + b) == AddDomain(origin, a) + AddDomain(origin, b)
  {
    var l, r := AddDomain(origin, a + b), AddDomain(origin, a) + AddDomain(origin, b);
    assert |l| == |r|;
    forall i | 0 <= i < |l| ensures l[i] == r[i] {
      if i < |a| {
        assert (a + b)[i] == a[i];
      } else {
        assert (a + b)[i] == b[i - |a|];
      }
    }
  }

  lemma PrefixCancel(origin: string, a: string, b: string)
    requires origin + a == origin + b
    ensures a == b
  {
    assert a == (origin + a)[|origin|..];
    assert b == (origin + b)[|origin|..];
  }

  /** A path contributes `origin + path` and nothing else contributes that URL. */
  lemma AddDomainMembership(origin: string, assets: seq<string>, path: string)
    ensures origin + path in AddDomain(origin, assets) <==> path in assets
  {
    var urls := AddDomain(origin, assets);
    if origin + path in urls {
      var i :| 0 <= i < |urls| && urls[i] == origin + path;
      PrefixCancel(origin, assets[i], path);
    }
    if path in assets {
      var i :| 0 <= i < |assets| && assets[i] == path;
      assert urls[i] == origin + path;
    }
  }

  /** The same-origin part of the manifest: kept static files, then bundler
      output, then routes, each prefixed with the origin. */
  function OurAssets(origin: string, files: seq<string>, build: seq<string>): (urls: seq<string>)
    ensures |urls| == |KeptFiles(files)| + |build| + |Routes|
    ensures forall i :: 0 <= i < |urls| ==> urls[i] == origin + (KeptFiles(files) + build + Routes)[i]
  {
    AddDomain(origin, KeptFiles(files) + build + Routes)
  }

  /** The list that install hands to the cache, duplicates included. */
  function ToCache(origin: string, files: seq<string>, build: seq<string>): (urls: seq<string>)
    ensures var k, b := |KeptFiles(files)|, |build|;
      && |urls| == k + b + |Routes| + |CustomAssets|
      && (forall i :: 0 <= i < k ==> urls[i] == origin + KeptFiles(files)[i])
      && (forall i :: 0 <= i < b ==> urls[k + i] == origin + build[i])
      && (forall i :: 0 <= i < |Routes| ==> urls[k + b + i] == origin + Routes[i])
      && (forall i :: 0 <= i < |CustomAssets| ==> urls[k + b + |Routes| + i] == CustomAssets[i])
  {
    var ours := KeptFiles(files) + build + Routes;
    assert forall i :: 0 <= i < |build| ==> ours[|KeptFiles(files)| + i] == build[i];
    assert forall i :: 0 <= i < |Routes| ==> ours[|KeptFiles(files)| + |build| + i] == Routes[i];
    OurAssets(origin, files, build) + CustomAssets
  }

  /** No element occurs twice. */
  predicate Distinct(s: seq<string>) {
    forall i, j :: 0 <= i < j < |s| ==> s[i] != s[j]
  }

  lemma {:induction false} ElementsSize(s: seq<string>)
    ensures |set u | u in s| <= |s|
    ensures |set u | u in s| == |s| <==> Distinct(s)
  {
    if s != [] {
      var rest := s[1..];
      ElementsSize(rest);
      assert (set u | u in s) == (set u | u in rest) + {s[0]};
      if s[0] in rest {
        assert (set u | u in s) == (set u | u in rest);
        var j :| 0 <= j < |rest| && rest[j] == s[0];
        assert s[0] == s[j + 1];
        assert !Distinct(s);
      } else {
        assert (set u | u in rest) !! {s[0]};
        assert Distinct(s) ==> Distinct(rest) by {
          if Distinct(s) {
            forall i, j | 0 <= i < j < |rest| ensures rest[i] != rest[j] {
              assert rest[i] == s[i + 1] && rest[j] == s[j + 1];
            }
          }
        }
        assert Distinct(rest) ==> Distinct(s) by {
          if Distinct(rest) {
            forall i, j | 0 <= i < j < |s| ensures s[i] != s[j] {
              if i == 0 {
                assert s[j] == rest[j - 1];
              } else {
                assert s[i] == rest[i - 1] && s[j] == rest[j - 1];
              }
            }
          }
        }
      }
    }
  }

  /** The set of URLs the worker treats as its own: the set image of `toCache`. */
  function StaticAssets(toCache: seq<string>): (assets: set<string>)
    ensures forall u :: u in assets <==> u in toCache
    ensures |assets| <= |toCache|
  {
    ElementsSize(toCache);
    set u | u in toCache
  }

  /** Duplicates in `toCache` collapse in `staticAssets`, and only then is the
      set smaller than the list. */
  lemma StaticAssetsCollapse(toCache: seq<string>)
    ensures |StaticAssets(toCache)| == |toCache| <==> Distinct(toCache)
  {
    ElementsSize(toCache);
  }

  /** `toCache` is not deduplicated: a static file that is also a route is listed twice. */
  lemma ToCacheMayRepeat(origin: string)
    ensures var urls := ToCache(origin, ["/settings"], []);
      !Distinct(urls) && |StaticAssets(urls)| < |urls|
  {
    var urls := ToCache(origin, ["/settings"], []);
    ShortPathsKept("/settings");
    assert KeptFiles(["/settings"]) == ["/settings"];
    assert urls[0] == origin + "/settings" == urls[2];
    StaticAssetsCollapse(urls);
  }

  /** Which static files reach the manifest: exactly those the pattern lets
      through, each as `origin + path`. */
  lemma FilesContribution(origin: string, files: seq<string>, path: string)
    ensures origin + path in AddDomain(origin, KeptFiles(files)) <==> path in files && !IconExcluded(path)
  {
    AddDomainMembership(origin, KeptFiles(files), path);
  }

  /** Bundler output is never filtered: every `build` entry is precached and
      is one of the worker's static assets, even if it matches the pattern. */
  lemma BuildNeverFiltered(origin: string, files: seq<string>, build: seq<string>, path: string)
    requires path in build
    ensures origin + path in StaticAssets(ToCache(origin, files, build))
  {
    AddDomainMembership(origin, KeptFiles(files) + build + Routes, path);
  }

  /** An excluded static file is missing from the static assets unless another
      source lists the same URL. */
  lemma ExcludedFileAbsent(origin: string, files: seq<string>, build: seq<string>, path: string)
    requires IconExcluded(path)
    requires path !in build && path !in Routes && origin + path !in CustomAssets
    ensures origin + path !in StaticAssets(ToCache(origin, files, build))
  {
    AddDomainMembership(origin, KeptFiles(files) + build + Routes, path);
  }

  /** A URL is a static asset exactly when some source contributes it. */
  lemma StaticAssetsMembership(origin: string, files: seq<string>, build: seq<string>, url: string)
    ensures url in StaticAssets(ToCache(origin, files, build)) <==>
      || url in AddDomain(origin, KeptFiles(files))
      || url in AddDomain(origin, build)
      || url in AddDomain(origin, Routes)
      || url in CustomAssets
  {
    var k := KeptFiles(files);
    AddDomainAppend(origin, k + build, Routes);
    AddDomainAppend(origin, k, build);
  }
}
