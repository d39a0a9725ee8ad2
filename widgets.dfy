/** The two widgets on one page: they share the tab's session storage and
    both listen for clicks on the document. */
module Widgets {
  import opened SessionStorage
  import Progress
  import Preface

  /** A key the gate derives (from an href or the page path) can never be the loading bar's
      pending-navigation flag: the "jjp:" namespace keeps the two apart. */
  lemma DerivedKeyNotPendingFlag(el: Option<Preface.Trigger>, pathname: string)
    requires !(el.Some? && Preface.Truthy(el.value.prefaceKey))
    ensures Preface.KeyFor(el, pathname) != Progress.STORAGE_KEY
  {
    var k := Preface.KeyFor(el, pathname);
    assert k[2] == 'p';
    assert Progress.STORAGE_KEY[2] == 'P';
  }

  /** The bar's pending flag is invisible to the gate: with the flag written, the gate decides
      every click as it would have without it, unless a trigger's explicit key is the flag's
      own key. */
  lemma FlagInvisibleToGate(s: Storage, pathname: string, m: Preface.Modifiers, el: Option<Preface.Trigger>)
    ensures Preface.KeyFor(el, pathname) != Progress.STORAGE_KEY ==>
      Preface.TriggerClick(Progress.SafeSet(s, Progress.STORAGE_KEY, Progress.PENDING), pathname, m, el)
      == Preface.TriggerClick(s, pathname, m, el)
  {
    var k := Preface.KeyFor(el, pathname);
    if k != Progress.STORAGE_KEY && s.available {
      FlagKeepsSkip(s, k);
    }
  }

  /** With storage working, writing the pending flag leaves the gate's skip answer for any
      other key as it was. */
  lemma FlagKeepsSkip(s: Storage, k: string)
    requires s.available && k != Progress.STORAGE_KEY
    ensures Preface.ShouldSkip(Progress.SafeSet(s, Progress.STORAGE_KEY, Progress.PENDING), k)
            == Preface.ShouldSkip(s, k)
  {
    GetAfterSet(s, Progress.STORAGE_KEY, Progress.PENDING, k);
  }

  /** The bar's listener runs first, in the capture phase, and does not look at the gate: a
      click on a gate trigger that is an ordinary link starts the bar and writes the pending
      flag, and the gate, reading the storage as the bar left it, still prevents the navigation
      and opens the dialog unless that link was dismissed. */
  lemma GateClickAlsoStartsBar(s: Storage, pathname: string, h: string)
    requires s.available
    requires Progress.StartsBar(Progress.Anchor(h, None, None, false))
    ensures var flagged := Progress.SafeSet(s, Progress.STORAGE_KEY, Progress.PENDING);
      var t := Preface.Trigger(None, Some(h), "");
      var k := Preface.KeyFor(Some(t), pathname);
      Progress.HeadStart(flagged) &&
      (h != "" ==> k == Preface.KEY_PREFIX + h) &&
      Preface.TriggerClick(flagged, pathname, Preface.Modifiers(false, false, false, false), Some(t))
      == if Preface.ShouldSkip(s, k) == Ok(true) then Preface.LetThrough
         else Preface.Intercept(if h != "" then Some(h) else None, k)
  {
    var t := Preface.Trigger(None, Some(h), "");
    Progress.HandOff(s);
    DerivedKeyNotPendingFlag(Some(t), pathname);
    FlagInvisibleToGate(s, pathname, Preface.Modifiers(false, false, false, false), Some(t));
    assert h != "#" by {
      assert Progress.IGNORED_PREFIXES[0] == "#";
    }
  }

  /** An ordinary link to a story, on storage where nothing was dismissed, both starts the bar
      and is intercepted by the gate. */
  lemma StoryLinkBothWidgets(s: Storage, pathname: string)
    requires s.available && s.items == map[]
    ensures Preface.TriggerClick(Progress.SafeSet(s, Progress.STORAGE_KEY, Progress.PENDING), pathname,
                                 Preface.Modifiers(false, false, false, false),
                                 Some(Preface.Trigger(None, Some("/story/42"), "")))
            == Preface.Intercept(Some("/story/42"), "jjp:/story/42")
  {
    Progress.OrdinaryLinkStarts();
    GateClickAlsoStartsBar(s, pathname, "/story/42");
  }
}
