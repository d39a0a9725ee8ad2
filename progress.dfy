/** The top loading bar: a thin bar at the top of the page that creeps
    toward 90% while a navigation is under way and jumps to 100% when the
    next page has loaded. A flag in session storage carries the fact that
    a navigation was started over to the next page, which then shows a
    head-start width at once. */
module Progress {
  import opened SessionStorage
  import opened Text

  // --- Configuration ---
  const START_ON_NEW_PAGE: real := 25.0  // head-start width shown on the next page
  const RAMP_TARGET: real := 90.0        // the ramp creeps toward this, never to 100
  const EASE: real := 0.12               // fraction of the remaining gap taken per tick
  const STORAGE_KEY: string := "jjProgressPending"
  const PENDING: string := "1"

  // --- Best-effort storage wrappers: they never raise ---

  /** `safeGet`: the stored value, or null (None) when the key is missing or storage throws. */
  function SafeGet(s: Storage, key: string): (r: Option<string>)
    ensures !s.available ==> r == None
    ensures r.Some? <==> s.available && key in s.items
    ensures r.Some? ==> r.value == s.items[key]
  {
    match GetItem(s, key)
    case Ok(v) => v
    case Threw => None
  }

  /** `safeSet`: stores the value, or leaves storage as it was when storage throws. */
  function SafeSet(s: Storage, key: string, val: string): (r: Storage)
    ensures r.available == s.available
    ensures !s.available ==> r == s
    ensures s.available ==> r.items == s.items[key := val]
  {
    match SetItem(s, key, val)
    case Ok(t) => t
    case Threw => s
  }

  /** `safeDel`: removes the key, or leaves storage as it was when storage throws. */
  function SafeDel(s: Storage, key: string): (r: Storage)
    ensures r.available == s.available
    ensures !s.available ==> r == s
    ensures s.available ==> r.items == s.items - {key}
  {
    match RemoveItem(s, key)
    case Ok(t) => t
    case Threw => s
  }

  /** Reading back through the wrappers: a stored value is seen exactly when storage works. */
  lemma SafeRoundTrip(s: Storage, key: string, val: string, other: string)
    ensures SafeGet(SafeSet(s, key, val), key) == (if s.available then Some(val) else None)
    ensures SafeGet(SafeDel(s, key), key) == None
    ensures other != key ==> SafeGet(SafeSet(s, key, val), other) == SafeGet(s, other)
    ensures other != key ==> SafeGet(SafeDel(s, key), other) == SafeGet(s, other)
  {
    if s.available {
      GetAfterSet(s, key, val, other);
      GetAfterRemove(s, key, other);
    }
  }

  // --- Head start on the next page ---

  /** The page shows the head-start width only when the flag is the string "1". */
  function HeadStart(s: Storage): (r: bool)
    ensures r <==> s.available && STORAGE_KEY in s.items && s.items[STORAGE_KEY] == "1"
  {
    SafeGet(s, STORAGE_KEY) == Some(PENDING)
  }

  /** The hand-off between two pages: the flag set when leaving (by a link click or by
      `beforeunload`) makes the next page show the head start, and completing removes it. */
  lemma HandOff(s: Storage)
    ensures s.available ==> HeadStart(SafeSet(s, STORAGE_KEY, PENDING))
    ensures !s.available ==> !HeadStart(SafeSet(s, STORAGE_KEY, PENDING))
    ensures !HeadStart(SafeDel(s, STORAGE_KEY))
  {
  }

  // --- The ramp ---

  function Max(a: real, b: real): real
  {
    if a >= b then a else b
  }

  /** One ramp tick, as `min(to, prog + max(1, (to - prog) * EASE))`. */
  function Ramp(prog: real, to: real): (r: real)
    ensures r <= to
    ensures prog <= to ==> prog <= r
    ensures prog <= to ==> r == to || prog + 1.0 <= r
  {
    var next := prog + Max(1.0, (to - prog) * EASE);
    if next <= to then next else to
  }

  /** The value after `n` ticks toward `to`. */
  function RampAfter(prog: real, to: real, n: nat): real
    decreases n
  {
    if n == 0 then prog else RampAfter(Ramp(prog, to), to, n - 1)
  }

  /** The ramp never decreases and never passes the target, however many ticks run. */
  lemma {:induction false} RampAfterBounded(prog: real, to: real, n: nat)
    requires prog <= to
    ensures prog <= RampAfter(prog, to, n) <= to
    ensures RampAfter(prog, to, n) <= RampAfter(prog, to, n + 1)
    decreases n
  {
    if n > 0 {
      RampAfterBounded(Ramp(prog, to), to, n - 1);
    }
  }

  /** The ramp reaches the target exactly within `n` ticks whenever the gap is at most `n`:
      every tick gains at least 1 until the target is hit, and the target is a fixed point. */
  lemma {:induction false} RampReachesTarget(prog: real, to: real, n: nat)
    requires prog <= to && to - prog <= n as real
    ensures RampAfter(prog, to, n) == to
    decreases n
  {
    if n > 0 {
      RampReachesTarget(Ramp(prog, to), to, n - 1);
    }
  }

  /** From a fresh start the bar is at the ramp target after at most 90 ticks. */
  lemma RampFromStart()
    ensures RampAfter(0.0, RAMP_TARGET, 90) == RAMP_TARGET
  {
    RampReachesTarget(0.0, RAMP_TARGET, 90);
  }

  // --- Which link clicks start the bar ---

  /** The attributes of the nearest `a[href]` around the click target. */
  datatype Anchor = Anchor(href: string, target: Option<string>, rel: Option<string>, download: bool)

  /** The href prefixes the filter turns away: in-page fragments, script execution, contacts. */
  const IGNORED_PREFIXES: seq<string> := ["#", "javascript:", "mailto:", "tel:"]

  /** In-page fragment, script-execution or contact links: the href begins with one of the
      ignored prefixes (the first character test for "#" is a prefix test too). */
  function IgnoredHref(href: string): (r: bool)
    ensures r <==> exists i :: 0 <= i < |IGNORED_PREFIXES| && IGNORED_PREFIXES[i] <= href
  {
    assert IGNORED_PREFIXES[0] == "#" && IGNORED_PREFIXES[1] == "javascript:";
    assert IGNORED_PREFIXES[2] == "mailto:" && IGNORED_PREFIXES[3] == "tel:";
    assert "#" <= href <==> |href| > 0 && href[0] == '#';
    (|href| > 0 && href[0] == '#') || "javascript:" <= href || "mailto:" <= href || "tel:" <= href
  }

  /** The lower-cased `rel` attribute, empty when absent. */
  function RelText(rel: Option<string>): string
  {
    match rel
    case Some(r) => ToLower(r)
    case None => ""
  }

  /** The click filter on one link: it passes exactly when the href is not ignored, the link is
      not a download, does not force a new tab, and "external" occurs nowhere in its lower-cased
      `rel`. */
  function StartsBar(a: Anchor): (r: bool)
    ensures r <==> !IgnoredHref(a.href) && !a.download && a.target != Some("_blank") &&
                   !exists i :: OccursAt(RelText(a.rel), "external", i)
  {
    IncludesAt(RelText(a.rel), "external");
    !(IgnoredHref(a.href) || a.download || a.target == Some("_blank") || Includes(RelText(a.rel), "external"))
  }

  /** A click starts the bar when it lands inside an `a[href]` that passes the filter. */
  predicate ClickStarts(hit: Option<Anchor>)
  {
    hit.Some? && StartsBar(hit.value)
  }

  /** The filter is blind to the case of `rel`: lower-casing it first changes nothing. */
  lemma RelCaseInsensitive(a: Anchor)
    requires a.rel.Some?
    ensures StartsBar(a.(rel := Some(ToLower(a.rel.value)))) == StartsBar(a)
  {
    ToLowerIdempotent(a.rel.value);
  }

  /** A `rel` holding "external" anywhere, in any mix of upper and lower case, stops the bar. */
  lemma ExternalRelStops(a: Anchor, i: int)
    requires a.rel.Some? && 0 <= i && i + 8 <= |a.rel.value|
    requires ToLower(a.rel.value[i..i + 8]) == "external"
    ensures !StartsBar(a)
  {
    var r := a.rel.value;
    assert ToLower(r)[i..i + 8] == ToLower(r[i..i + 8]);
    assert OccursAt(ToLower(r), "external", i);
    IncludesAt(ToLower(r), "external");
  }

  /** An ordinary link to another page starts the bar. */
  lemma OrdinaryLinkStarts()
    ensures StartsBar(Anchor("/story/42", None, None, false))
  {
    var href := "/story/42";
    assert href[0] == '/' && href[1] == 's';
    assert !("javascript:" <= href) && !("mailto:" <= href) && !("tel:" <= href);
    assert !Includes("", "external");
  }

  /** The same link opened in a new tab, as a download, or marked external does not. */
  lemma NewTabDownloadExternalIgnored(a: Anchor)
    requires a.href == "/story/42"
    ensures a.target == Some("_blank") ==> !StartsBar(a)
    ensures a.download ==> !StartsBar(a)
    ensures a.rel == Some("noopener EXTERNAL") ==> !StartsBar(a)
  {
    if a.rel == Some("noopener EXTERNAL") {
      var r := a.rel.value;
      var w := r[9..17];
      assert w == "EXTERNAL";
      assert ToLower(w) == "external" by {
        forall k | 0 <= k < 8 ensures ToLower(w)[k] == "external"[k] {
          assert LowerChar(w[k]) == "external"[k];
        }
      }
      ExternalRelStops(a, 9);
    }
  }

  // --- The bar ---

  /** The script's module-level state together with the parts of the page it touches. */
  class TopBar {
    var prog: real             // current ramp value, in percent
    var timerOn: bool          // an interval timer is running
    var timerTo: real          // the ceiling that timer ramps toward
    var barSet: bool           // the `bar` variable holds the bar element
    var styleTag: bool         // the `styleTag` variable holds the script's style element
    var sheenInserted: bool
    var topbars: nat           // elements with id jj-topbar in the document
    var styleBlocks: nat       // style elements this script has appended to the head
    var width: real            // the bar's displayed width, in percent
    var opacity: real
    var headStartQueued: bool  // an animation frame will apply the head-start width
    var fadesQueued: nat       // pending fade-out callbacks scheduled by Done
    var resetsQueued: nat      // pending width-reset callbacks scheduled by the fade-out
    var storage: Storage

    ghost predicate Valid()
      reads this
    {
      0.0 <= prog <= 100.0 &&
      (timerOn ==> prog <= timerTo <= 100.0) &&
      (sheenInserted <==> styleTag) &&
      (styleTag ==> styleBlocks >= 1) &&
      (barSet ==> topbars >= 1) &&
      (headStartQueued ==> barSet) &&
      (fadesQueued > 0 || resetsQueued > 0 ==> barSet)
    }

    /** The effect of `ensureBar` on the object and on the document. */
    twostate predicate BarEnsured()
      reads this
    {
      barSet && styleTag && sheenInserted &&
      topbars == (if old(topbars) == 0 then 1 else old(topbars)) &&
      styleBlocks == old(styleBlocks) + (if old(styleTag) then 0 else 1)
    }

    /** The effect of `start`. */
    twostate predicate RampStarted()
      reads this
    {
      BarEnsured() &&
      prog == 0.0 && timerOn && timerTo == RAMP_TARGET &&
      opacity == 1.0 && width == 0.0 &&
      storage == SafeSet(old(storage), STORAGE_KEY, PENDING) &&
      headStartQueued == old(headStartQueued) &&
      fadesQueued == old(fadesQueued) && resetsQueued == old(resetsQueued)
    }

    /** Script load: the initial module state, then the head-start check. `markupBars` is
        the number of jj-topbar elements already in the page. */
    constructor (storage: Storage, markupBars: nat)
      ensures Valid()
      ensures this.storage == storage
      ensures prog == 0.0 && !timerOn && timerTo == 0.0 && fadesQueued == 0 && resetsQueued == 0
      ensures width == 0.0 && opacity == 1.0
      ensures styleTag == HeadStart(storage) && sheenInserted == HeadStart(storage)
      ensures headStartQueued == HeadStart(storage) && barSet == HeadStart(storage)
      ensures topbars == (if HeadStart(storage) && markupBars == 0 then 1 else markupBars)
      ensures styleBlocks == (if HeadStart(storage) then 1 else 0)
    {
      prog, timerOn, timerTo := 0.0, false, 0.0;
      barSet, styleTag, sheenInserted := false, false, false;
      topbars, styleBlocks := markupBars, 0;
      width, opacity := 0.0, 1.0;
      headStartQueued, fadesQueued, resetsQueued := false, 0, 0;
      this.storage := storage;
      new;
      if SafeGet(this.storage, STORAGE_KEY) == Some(PENDING) {
        EnsureBar();
        headStartQueued := true;
      }
    }

    /** `ensureStyle`: appends the style element on the first call only. */
    method EnsureStyle()
      requires Valid()
      modifies this`styleTag, this`sheenInserted, this`styleBlocks
      ensures Valid()
      ensures styleTag && sheenInserted
      ensures styleBlocks == old(styleBlocks) + (if old(styleTag) then 0 else 1)
    {
      if styleTag {
        return;
      }
      styleTag := true;
      styleBlocks := styleBlocks + 1;
      sheenInserted := true;
    }

    /** `ensureBar`: reuses the page's jj-topbar element, creating one only when none exists. */
    method EnsureBar()
      requires Valid()
      modifies this`styleTag, this`sheenInserted, this`styleBlocks, this`barSet, this`topbars
      ensures Valid() && BarEnsured()
    {
      EnsureStyle();
      if topbars == 0 {
        topbars := 1;
        if !sheenInserted {
          // the keyframes fallback never runs: EnsureStyle has just set sheenInserted
          assert false;
        }
      }
      barSet := true;
    }

    /** `tick(to)`: replaces any running interval by one ramping toward `to`. */
    method Tick(to: real)
      requires Valid() && prog <= to <= 100.0
      modifies this`timerOn, this`timerTo
      ensures Valid() && timerOn && timerTo == to
    {
      timerOn, timerTo := true, to;
    }

    /** One firing of the interval callback. */
    method Step()
      requires Valid() && timerOn
      modifies this`prog, this`timerOn, this`width
      ensures Valid()
      ensures prog == Ramp(old(prog), timerTo)
      ensures timerOn <==> prog < timerTo
      ensures width == if barSet then prog else old(width)
    {
      prog := prog + Max(1.0, (timerTo - prog) * EASE);
      if prog >= timerTo {
        prog := timerTo;
        timerOn := false;
      }
      if barSet {
        width := prog;
      }
    }

    /** `start`: reset to 0, ramp toward RAMP_TARGET and flag the navigation for the next page. */
    method Start()
      requires Valid()
      modifies this
      ensures Valid() && RampStarted()
    {
      EnsureBar();
      prog := 0.0;
      opacity := 1.0;
      width := 0.0;
      Tick(RAMP_TARGET);
      storage := SafeSet(storage, STORAGE_KEY, PENDING);
    }

    /** `done`, also run on the page's load event: jump to 100, stop the ramp, clear the flag
        and schedule the fade-out. */
    method Done()
      requires Valid()
      modifies this
      ensures Valid() && BarEnsured()
      ensures prog == 100.0 && !timerOn && width == 100.0
      ensures storage == SafeDel(old(storage), STORAGE_KEY)
      ensures fadesQueued == old(fadesQueued) + 1
      ensures resetsQueued == old(resetsQueued) && opacity == old(opacity)
      ensures headStartQueued == old(headStartQueued) && timerTo == old(timerTo)
    {
      timerOn := false;
      prog := 100.0;
      EnsureBar();
      width := 100.0;
      storage := SafeDel(storage, STORAGE_KEY);
      fadesQueued := fadesQueued + 1;
    }

    /** The first delayed callback of `done`: fade out, then schedule the width reset. */
    method FadeOut()
      requires Valid() && fadesQueued > 0
      modifies this`opacity, this`fadesQueued, this`resetsQueued
      ensures Valid()
      ensures opacity == 0.0
      ensures fadesQueued == old(fadesQueued) - 1 && resetsQueued == old(resetsQueued) + 1
    {
      opacity := 0.0;
      fadesQueued := fadesQueued - 1;
      resetsQueued := resetsQueued + 1;
    }

    /** The second delayed callback of `done`: the bar goes back to zero width. */
    method ResetWidth()
      requires Valid() && resetsQueued > 0
      modifies this`width, this`resetsQueued
      ensures Valid()
      ensures width == 0.0 && resetsQueued == old(resetsQueued) - 1
    {
      width := 0.0;
      resetsQueued := resetsQueued - 1;
    }

    /** The animation frame queued by the head-start check. */
    method HeadStartFrame()
      requires Valid() && headStartQueued
      modifies this`width, this`headStartQueued
      ensures Valid()
      ensures width == START_ON_NEW_PAGE && !headStartQueued
    {
      width := START_ON_NEW_PAGE;
      headStartQueued := false;
    }

    /** The `beforeunload` safety net: flag a navigation whatever started it. */
    method BeforeUnload()
      requires Valid()
      modifies this`storage
      ensures Valid()
      ensures storage == SafeSet(old(storage), STORAGE_KEY, PENDING)
    {
      storage := SafeSet(storage, STORAGE_KEY, PENDING);
    }

    /** The capturing click listener. `hit` is the nearest `a[href]` around the click target,
        None when there is none (or the target has no element to climb from). */
    method OnClick(hit: Option<Anchor>) returns (started: bool)
      requires Valid()
      modifies this
      ensures Valid()
      ensures started == ClickStarts(hit)
      ensures started ==> RampStarted()
      ensures !started ==> unchanged(this)
    {
      if hit.None? {
        return false;
      }
      var a := hit.value;
      if IgnoredHref(a.href) || a.download || a.target == Some("_blank") || Includes(RelText(a.rel), "external") {
        return false;
      }
      Start();
      started := true;
    }
  }
}
