/** The header component around the two sketches: the scroll handler that
    drives the collapse signal and the dimmed-text state, the navigation
    labels and the element each one scrolls to, the text colour class, and the
    position of the cursor mask over the glyph layer. */
module CollapsibleHeader {

  /** Scroll offset a downward scroll must pass before the header collapses. */
  const CollapseThreshold: real := 10.0

  /** The header's own state: the last scroll offset seen, the collapse signal
      shared with the sketches, and the React flag that dims the labels. */
  datatype ScrollState = ScrollState(lastScrollY: real, toCollapse: bool, isDimmed: bool)

  /** The state when the header mounts. */
  const Initial: ScrollState := ScrollState(0.0, false, false)

  /** Whether a scroll to `currentY` counts as scrolling down. */
  function ScrollingDown(lastY: real, currentY: real): (down: bool)
    ensures down ==> currentY > lastY && currentY > CollapseThreshold
    ensures currentY <= lastY || currentY <= CollapseThreshold ==> !down
  {
    currentY > lastY && currentY > CollapseThreshold
  }

  /** The state after one scroll event to offset `currentY`. */
  function Step(s: ScrollState, currentY: real): (r: ScrollState)
    ensures r.lastScrollY == currentY
    ensures r.toCollapse <==> currentY > s.lastScrollY && currentY > CollapseThreshold
    ensures currentY <= CollapseThreshold || currentY <= s.lastScrollY ==> !r.toCollapse
    ensures r.toCollapse != s.toCollapse ==> r.isDimmed == r.toCollapse
    ensures r.toCollapse == s.toCollapse ==> r.isDimmed == s.isDimmed
  {
    var scrollingDown := ScrollingDown(s.lastScrollY, currentY);
    var signalled := if scrollingDown != s.toCollapse
      then s.(toCollapse := scrollingDown, isDimmed := scrollingDown)
      else s;
    signalled.(lastScrollY := currentY)
  }

  /** The state after a stream of scroll events, oldest first. */
  function Run(s: ScrollState, ys: seq<real>): (r: ScrollState)
    decreases |ys|
  {
    if ys == [] then s else Run(Step(s, ys[0]), ys[1..])
  }

  /** Once the dimmed flag agrees with the signal (as it does at mount), it
      agrees after every stream of scroll events. */
  lemma {:induction false} DimmedTracksSignal(s: ScrollState, ys: seq<real>)
    requires s.isDimmed == s.toCollapse
    ensures Run(s, ys).isDimmed == Run(s, ys).toCollapse
    decreases |ys|
  {
    if ys != [] {
      DimmedTracksSignal(Step(s, ys[0]), ys[1..]);
    }
  }

  /** After a non-empty stream, the last offset is stored and the signal is
      exactly "the last event scrolled down past the threshold", judged
      against the offset before it. */
  lemma {:induction false} RunEndsWithLastEvent(s: ScrollState, ys: seq<real>)
    requires ys != []
    ensures Run(s, ys).lastScrollY == ys[|ys| - 1]
    ensures Run(s, ys).toCollapse ==
      ScrollingDown(if |ys| == 1 then s.lastScrollY else ys[|ys| - 2], ys[|ys| - 1])
    decreases |ys|
  {
    if |ys| > 1 {
      RunEndsWithLastEvent(Step(s, ys[0]), ys[1..]);
    }
  }

  /** The header component's scroll-related state, updated in place. */
  class Header {
    var lastScrollY: real
    var toCollapse: bool
    var isDimmed: bool

    function State(): ScrollState
      reads this
    {
      ScrollState(lastScrollY, toCollapse, isDimmed)
    }

    /** The dimmed flag mirrors the collapse signal. */
    ghost predicate Valid()
      reads this
    {
      isDimmed == toCollapse
    }

    constructor ()
      ensures State() == Initial && Valid()
    {
      lastScrollY, toCollapse, isDimmed := 0.0, false, false;
    }

    /** The scroll listener (`handleScroll`): the signal and the dimmed flag
        are written only when the signal changes; the offset always. */
    method HandleScroll(currentScrollY: real)
      modifies this
      ensures State() == Step(old(State()), currentScrollY)
      ensures old(Valid()) ==> Valid()
    {
      var scrollingDown := currentScrollY > lastScrollY && currentScrollY > CollapseThreshold;
      if scrollingDown != toCollapse {
        toCollapse := scrollingDown;
        isDimmed := scrollingDown;
      }
      lastScrollY := currentScrollY;
    }
  }

  /** The navigation labels, in display order. */
  const NavLabels: seq<string> := ["ABOUT ME", "WORKS", "CONTACT"]

  /** Lower-case mapping of one character (ASCII letters only). */
  function LowerChar(c: char): (lower: char)
  {
    if 'A' <= c <= 'Z' then (c as int - 'A' as int + 'a' as int) as char else c
  }

  /** `toLowerCase`, character by character. */
  function ToLower(s: string): (r: string)
    ensures |r| == |s|
    ensures forall k :: 0 <= k < |s| ==> r[k] == LowerChar(s[k])
    ensures forall k :: 0 <= k < |r| ==> !('A' <= r[k] <= 'Z')
  {
    if s == [] then [] else [LowerChar(s[0])] + ToLower(s[1..])
  }

  /** `replace(" ", "")`: a string pattern replaces its first occurrence only. */
  function RemoveFirstSpace(s: string): (r: string)
    ensures ' ' !in s ==> r == s
    ensures ' ' in s ==> |r| == |s| - 1
    ensures forall k :: 0 <= k < |r| ==> r[k] in s
  {
    if s == [] then []
    else if s[0] == ' ' then s[1..]
    else [s[0]] + RemoveFirstSpace(s[1..])
  }

  /** Only the first space goes: whatever follows it is kept as it is. */
  lemma {:induction false} RemoveFirstSpaceAt(a: string, b: string)
    requires ' ' !in a
    ensures RemoveFirstSpace(a + [' '] + b) == a + b
  {
    if a != [] {
      assert (a + [' '] + b)[1..] == a[1..] + [' '] + b;
      RemoveFirstSpaceAt(a[1..], b);
      assert [a[0]] + (a[1..] + b) == a + b;
    }
  }

  /** The element id a label scrolls to. */
  function NavId(name: string): (id: string)
    ensures ' ' !in name ==> |id| == |name|
    ensures ' ' in name ==> |id| == |name| - 1
    ensures forall k :: 0 <= k < |id| ==> !('A' <= id[k] <= 'Z')
  {
    SpaceSurvivesLower(name);
    RemoveFirstSpace(ToLower(name))
  }

  /** Lower-casing keeps spaces and makes none. */
  lemma SpaceSurvivesLower(s: string)
    ensures ' ' in ToLower(s) <==> ' ' in s
  {
    var t := ToLower(s);
    if ' ' in s {
      var k :| 0 <= k < |s| && s[k] == ' ';
      assert t[k] == ' ';
    }
    if ' ' in t {
      var k :| 0 <= k < |t| && t[k] == ' ';
      assert LowerChar(s[k]) == ' ';
    }
  }

  /** What `scrollTo` looks up. */
  datatype ScrollTarget = Footer | ElementWithId(id: string)

  /** `scrollTo`'s choice: the page footer for the id "footer", otherwise the
      element with that id. */
  function ScrollTargetOf(id: string): (t: ScrollTarget)
    ensures t == Footer <==> id == "footer"
    ensures t.ElementWithId? ==> t.id == id
  {
    if id == "footer" then Footer else ElementWithId(id)
  }

  /** `ToLower` is determined by its characters. */
  lemma LowerOf(s: string, t: string)
    requires |s| == |t| && forall k :: 0 <= k < |s| ==> LowerChar(s[k]) == t[k]
    ensures ToLower(s) == t
  {
  }

  lemma NavIdAboutMe()
    ensures NavId("ABOUT ME") == "aboutme"
  {
    LowerOf("ABOUT ME", "about me");
    SpaceInAboutMe();
  }

  lemma SpaceInAboutMe()
    ensures RemoveFirstSpace("about me") == "aboutme"
  {
    var a, b := "about", "me";
    assert a + [' '] + b == "about me";
    RemoveFirstSpaceAt(a, b);
  }

  lemma NavIdWorks()
    ensures NavId("WORKS") == "works"
  {
    LowerOf("WORKS", "works");
    assert ' ' !in "works";
  }

  lemma NavIdContact()
    ensures NavId("CONTACT") == "contact"
  {
    LowerOf("CONTACT", "contact");
    assert ' ' !in "contact";
  }

  /** The three labels scroll to the elements "aboutme", "works" and
      "contact"; none of them reaches the footer branch. */
  lemma NavTargets()
    ensures ScrollTargetOf(NavId(NavLabels[0])) == ElementWithId("aboutme")
    ensures ScrollTargetOf(NavId(NavLabels[1])) == ElementWithId("works")
    ensures ScrollTargetOf(NavId(NavLabels[2])) == ElementWithId("contact")
    ensures forall i :: 0 <= i < |NavLabels| ==> ScrollTargetOf(NavId(NavLabels[i])) != Footer
  {
    NavIdAboutMe();
    NavIdWorks();
    NavIdContact();
    assert NavLabels[0] == "ABOUT ME" && NavLabels[1] == "WORKS" && NavLabels[2] == "CONTACT";
    forall i | 0 <= i < |NavLabels|
      ensures ScrollTargetOf(NavId(NavLabels[i])) != Footer
    {
      if i == 0 {
        assert NavId(NavLabels[i]) == "aboutme";
      } else if i == 1 {
        assert NavId(NavLabels[i]) == "works";
      } else {
        assert NavId(NavLabels[i]) == "contact";
      }
    }
  }

  /** The labels' colour class: faded while dimmed. */
  function TextClasses(isDimmed: bool): (r: string)
    ensures r == "text-black/40" <==> isDimmed
    ensures !isDimmed ==> r == "text-black"
  {
    if isDimmed then "text-black/40" else "text-black"
  }

  /** From mount on, the labels are faded exactly while the collapse signal
      is on. */
  lemma LabelsFadeWithSignal(ys: seq<real>)
    ensures TextClasses(Run(Initial, ys).isDimmed) == "text-black/40" <==> Run(Initial, ys).toCollapse
  {
    DimmedTracksSignal(Initial, ys);
  }

  /** Side length of the square cursor mask. */
  const MaskSize: real := 100.0

  datatype Option<T> = None | Some(value: T)

  /** Top-left corner of the mask, in pixels. */
  datatype MaskPosition = MaskPosition(x: real, y: real)

  /** The mask effect: when the mask element exists, it is placed so that the
      pointer at (x, y) sits at its centre; otherwise nothing is set. */
  function MaskPositionFor(maskPresent: bool, x: real, y: real): (r: Option<MaskPosition>)
    ensures r.Some? <==> maskPresent
    ensures r.Some? ==> r.value.x + MaskSize / 2.0 == x && r.value.y + MaskSize / 2.0 == y
  {
    if maskPresent then Some(MaskPosition(x - MaskSize / 2.0, y - MaskSize / 2.0)) else None
  }
}
