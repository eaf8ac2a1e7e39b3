/**
 * The device performance tier: a one-shot classification of the browser's
 * WebGL renderer, CPU core count, memory and reduced-motion preference into
 * low, medium or high, memoised for the life of the page, plus the two
 * constant per-tier tables.
 *
 * The browser probes (canvas and WebGL context creation, the debug renderer
 * extension, navigator fields, matchMedia) are foreign calls; their results
 * are inputs here.
 */
module Performance {
  import opened Wrappers
  import opened Strings

  datatype PerfTier = Low | Medium | High

  /** Position of a tier in the order low < medium < high. */
  function Rank(t: PerfTier): (r: nat)
    ensures r <= 2
  {
    match t
    case Low => 0
    case Medium => 1
    case High => 2
  }

  /** The lower of two tiers. */
  function MinTier(a: PerfTier, b: PerfTier): (m: PerfTier)
    ensures Rank(m) <= Rank(a) && Rank(m) <= Rank(b)
    ensures m == a || m == b
  {
    if Rank(a) <= Rank(b) then a else b
  }

  // ----- WebGL classification -----

  datatype WebGLKind = Hardware | Software | NoWebGL

  /** What probing for WebGL yields: some step threw, no context could be
      created, or a context whose debug renderer extension is either missing
      or gives the unmasked renderer and vendor strings. */
  datatype GLProbe =
    | ProbeThrew
    | NoContext
    | Context(debugInfo: Option<RendererInfo>)

  datatype RendererInfo = RendererInfo(renderer: string, vendor: string)

  /** Renderer-name fragments of known software rasterisers, all lower case. */
  const SoftwareKeywords: seq<string> :=
    ["swiftshader", "llvmpipe", "softpipe", "software", "microsoft basic"]

  /** Lower-cases the ASCII letters of one character. */
  function LowerChar(c: char): (d: char)
    ensures 'A' <= c <= 'Z' ==> 'a' <= d <= 'z'
    ensures !('A' <= c <= 'Z') ==> d == c
  {
    if 'A' <= c <= 'Z' then (c as int + 32) as char else c
  }

  /** `toLowerCase` restricted to ASCII letters. */
  function ToLower(s: string): (r: string)
    ensures |r| == |s|
    ensures forall i :: 0 <= i < |s| ==> r[i] == LowerChar(s[i])
  {
    if s == [] then [] else [LowerChar(s[0])] + ToLower(s[1..])
  }

  /** `keywords.some(kw => info.includes(kw))`. */
  function AnyIncluded(info: string, keywords: seq<string>): (b: bool)
    ensures b <==> exists k :: k in keywords && Includes(info, k)
  {
    if keywords == [] then false
    else if Includes(info, keywords[0]) then
      assert keywords[0] in keywords;
      true
    else
      var b := AnyIncluded(info, keywords[1..]);
      assert forall k :: k in keywords && k != keywords[0] ==> k in keywords[1..];
      assert forall k :: k in keywords[1..] ==> k in keywords;
      b
  }

  /** The lower-cased `renderer + " " + vendor` string that is searched. */
  function RendererText(d: RendererInfo): string
  {
    ToLower(d.renderer + " " + d.vendor)
  }

  /** `detectWebGL`: the class of the WebGL implementation. */
  function DetectWebGL(p: GLProbe): (k: WebGLKind)
    ensures k == NoWebGL <==> p.ProbeThrew? || p.NoContext?
    ensures k == Software <==>
      p.Context? && p.debugInfo.Some? &&
      exists kw :: kw in SoftwareKeywords && Includes(RendererText(p.debugInfo.value), kw)
  {
    match p
    case ProbeThrew => NoWebGL
    case NoContext => NoWebGL
    case Context(None) => Hardware
    case Context(Some(d)) =>
      if AnyIncluded(RendererText(d), SoftwareKeywords) then Software else Hardware
  }

  /** When the context exists but the debug extension does not, WebGL is taken
      to be hardware-backed. */
  lemma HardwareWithoutDebugInfo()
    ensures DetectWebGL(Context(None)) == Hardware
  {
  }

  /** A renderer string with none of the keywords is hardware-backed. */
  lemma HardwareWhenNoKeyword(d: RendererInfo)
    requires forall kw :: kw in SoftwareKeywords ==> !Includes(RendererText(d), kw)
    ensures DetectWebGL(Context(Some(d))) == Hardware
  {
  }

  /** Lower-casing distributes over concatenation. */
  lemma ToLowerConcat(a: string, b: string)
    ensures ToLower(a + b) == ToLower(a) + ToLower(b)
  {
    assert |ToLower(a + b)| == |ToLower(a) + ToLower(b)|;
    forall i | 0 <= i < |a + b|
      ensures ToLower(a + b)[i] == (ToLower(a) + ToLower(b))[i]
    {
      if i < |a| {
        assert (a + b)[i] == a[i];
      } else {
        assert (a + b)[i] == b[i - |a|];
      }
    }
  }

  /** Chrome's software fallback is recognised whatever the capitalisation
      of its renderer name and whatever the vendor string. */
  lemma SwiftShaderIsSoftware(r: string, v: string)
    requires ToLower(r) == "google swiftshader"
    ensures DetectWebGL(Context(Some(RendererInfo(r, v)))) == Software
  {
    ToLowerConcat(r, " " + v);
    assert r + " " + v == r + (" " + v);
    var info := RendererText(RendererInfo(r, v));
    assert info[7..18] == "swiftshader";
    assert OccursAt(info, "swiftshader", 7);
    IncludesIffOccurs(info, "swiftshader");
    assert "swiftshader" in SoftwareKeywords;
  }

  // ----- The decision table -----

  /** First-match decision table of `getPerformanceTier`. */
  function ChooseTier(webgl: WebGLKind, reducedMotion: bool, cores: int, memory: real): (t: PerfTier)
    ensures t == Low <==> webgl != Hardware || reducedMotion || cores <= 2 || memory <= 1.0
  {
    if webgl != Hardware || reducedMotion || cores <= 2 || memory <= 1.0 then Low
    else if cores <= 6 || memory <= 3.0 then Medium
    else High
  }

  /** The tier each signal allows on its own. */
  function WebGLCap(webgl: WebGLKind): PerfTier { if webgl == Hardware then High else Low }
  function MotionCap(reducedMotion: bool): PerfTier { if reducedMotion then Low else High }
  function CoresCap(cores: int): PerfTier { if cores <= 2 then Low else if cores <= 6 then Medium else High }
  function MemoryCap(memory: real): PerfTier { if memory <= 1.0 then Low else if memory <= 3.0 then Medium else High }

  /** The first-match table gives the weakest of the per-signal tiers. */
  lemma ChooseTierIsWeakestSignal(webgl: WebGLKind, reducedMotion: bool, cores: int, memory: real)
    ensures ChooseTier(webgl, reducedMotion, cores, memory)
         == MinTier(MinTier(WebGLCap(webgl), MotionCap(reducedMotion)),
                    MinTier(CoresCap(cores), MemoryCap(memory)))
  {
  }

  /** More cores and more memory never give a lower tier. */
  lemma TierMonotone(webgl: WebGLKind, reducedMotion: bool, c1: int, m1: real, c2: int, m2: real)
    requires c1 <= c2 && m1 <= m2
    ensures Rank(ChooseTier(webgl, reducedMotion, c1, m1)) <= Rank(ChooseTier(webgl, reducedMotion, c2, m2))
  {
    ChooseTierIsWeakestSignal(webgl, reducedMotion, c1, m1);
    ChooseTierIsWeakestSignal(webgl, reducedMotion, c2, m2);
  }

  /** High needs hardware WebGL, no reduced motion, at least 7 cores and more
      than 3 GB of memory (the header comment of the source says 8+ cores). */
  lemma HighExactly(webgl: WebGLKind, reducedMotion: bool, cores: int, memory: real)
    ensures ChooseTier(webgl, reducedMotion, cores, memory) == High <==>
      webgl == Hardware && !reducedMotion && cores >= 7 && memory > 3.0
  {
  }

  // ----- Environment and memoisation -----

  /** The ambient environment of one call: a server render, where `window`
      is undefined, or a browser with its navigator and WebGL answers. */
  datatype Env =
    | Server
    | Browser(hardwareConcurrency: Option<int>, deviceMemory: Option<real>,
              gl: GLProbe, prefersReducedMotion: bool)

  /** Default for a navigator value that is missing. */
  const DefaultSignal: int := 4

  function CoresOf(hc: Option<int>): int { match hc case Some(c) => c case None => DefaultSignal }
  function MemoryOf(dm: Option<real>): real { match dm case Some(m) => m case None => DefaultSignal as real }

  /** The tier a browser environment is classified as. */
  function ProbeTier(env: Env): PerfTier
    requires env.Browser?
  {
    ChooseTier(DetectWebGL(env.gl), env.prefersReducedMotion,
               CoresOf(env.hardwareConcurrency), MemoryOf(env.deviceMemory))
  }

  /** Unknown core count and memory count as 4 each, which is medium. */
  lemma UnknownSignalsGiveMedium(gl: GLProbe)
    requires DetectWebGL(gl) == Hardware
    ensures ProbeTier(Browser(None, None, gl, false)) == Medium
  {
  }

  /** The worked low-tier case: 2 cores, 1 GB and a software renderer. */
  lemma LowTierScenario(d: RendererInfo)
    requires DetectWebGL(Context(Some(d))) == Software
    ensures ProbeTier(Browser(Some(2), Some(1.0), Context(Some(d)), false)) == Low
  {
  }

  /** Result of one `getPerformanceTier` call: the tier returned, the cache
      afterwards and whether the environment was probed. */
  datatype Lookup = Lookup(tier: PerfTier, cache: Option<PerfTier>, probed: bool)

  /** One call of `getPerformanceTier` against the cache `cached`. */
  function CachedTier(cached: Option<PerfTier>, env: Env): (r: Lookup)
    ensures cached.Some? ==> r == Lookup(cached.value, cached, false)
    ensures cached.None? && env.Server? ==> r == Lookup(High, None, false)
    ensures cached.None? && env.Browser? ==> r.probed && r.tier == ProbeTier(env) && r.cache == Some(r.tier)
  {
    if cached.Some? then Lookup(cached.value, cached, false)
    else if env.Server? then Lookup(High, None, false)
    else var t := ProbeTier(env); Lookup(t, Some(t), true)
  }

  /** The tiers returned by successive calls, and the final cache. */
  function Calls(cached: Option<PerfTier>, envs: seq<Env>): (r: (seq<PerfTier>, Option<PerfTier>))
    ensures |r.0| == |envs|
    decreases |envs|
  {
    if envs == [] then ([], cached)
    else
      var l := CachedTier(cached, envs[0]);
      var rest := Calls(l.cache, envs[1..]);
      ([l.tier] + rest.0, rest.1)
  }

  /** Once the cache holds a tier, every later call returns it and the cache
      keeps it. */
  lemma {:induction false} CacheIsFinal(t: PerfTier, envs: seq<Env>)
    ensures Calls(Some(t), envs).1 == Some(t)
    ensures forall i :: 0 <= i < |envs| ==> Calls(Some(t), envs).0[i] == t
  {
    if envs != [] {
      CacheIsFinal(t, envs[1..]);
    }
  }

  /** Starting from an empty cache, the calls made during server rendering
      return high, and the first browser call fixes the tier for every call
      after it. */
  lemma {:induction false} FirstBrowserCallDecides(envs: seq<Env>, k: nat)
    requires k < |envs| && envs[k].Browser?
    requires forall j :: 0 <= j < k ==> envs[j].Server?
    ensures forall j :: 0 <= j < k ==> Calls(None, envs).0[j] == High
    ensures forall j :: k <= j < |envs| ==> Calls(None, envs).0[j] == ProbeTier(envs[k])
    ensures Calls(None, envs).1 == Some(ProbeTier(envs[k]))
  {
    if k == 0 {
      CacheIsFinal(ProbeTier(envs[0]), envs[1..]);
    } else {
      FirstBrowserCallDecides(envs[1..], k - 1);
    }
  }

  /** The module-level `_cachedTier`, with the number of environment probes
      made so far. */
  class TierCache {
    var cachedTier: Option<PerfTier>
    ghost var probes: nat

    constructor ()
      ensures cachedTier == None && probes == 0
    {
      cachedTier := None;
      probes := 0;
    }

    /** `getPerformanceTier`. */
    method GetPerformanceTier(env: Env) returns (tier: PerfTier)
      modifies this
      ensures var l := CachedTier(old(cachedTier), env);
        tier == l.tier && cachedTier == l.cache &&
        probes == old(probes) + (if l.probed then 1 else 0)
    {
      if cachedTier.Some? {
        return cachedTier.value;
      }
      if env.Server? {
        return High;
      }
      var cores := CoresOf(env.hardwareConcurrency);
      var mem := MemoryOf(env.deviceMemory);
      var webgl := DetectWebGL(env.gl);
      probes := probes + 1;
      var reducedMotion := env.prefersReducedMotion;
      if webgl != Hardware || reducedMotion || cores <= 2 || mem <= 1.0 {
        cachedTier := Some(Low);
      } else if cores <= 6 || mem <= 3.0 {
        cachedTier := Some(Medium);
      } else {
        cachedTier := Some(High);
      }
      tier := cachedTier.value;
    }
  }

  // ----- Per-tier tables -----

  /** `STAR_DENSITY`: canvas area per star, by tier. */
  const StarDensity: map<PerfTier, int> := map[High := 14000, Medium := 22000, Low := 40000]

  /** `TARGET_FPS`: target frame rate, by tier. */
  const TargetFps: map<PerfTier, int> := map[High := 60, Medium := 45, Low := 30]

  /** Both tables are defined for every tier; a higher tier has a smaller area
      per star (denser field) and a higher frame rate. */
  lemma TablesTotalAndOrdered()
    ensures forall t: PerfTier :: t in StarDensity && t in TargetFps
    ensures forall a: PerfTier, b: PerfTier :: Rank(a) < Rank(b) ==>
      StarDensity[a] > StarDensity[b] && TargetFps[a] < TargetFps[b]
  {
    forall t: PerfTier ensures t in StarDensity && t in TargetFps {
      match t
      case Low =>
      case Medium =>
      case High =>
    }
  }
}
