/** The column preference of the designs grid: a resize rule, the options
    offered per view, the reset to the first option, and the class string
    the grid renders with. */
module DesignsGrid {

  /** Viewports narrower than this are mobile. */
  const MobileBreakpoint: int := 640

  predicate IsMobileWidth(width: int) {
    width < MobileBreakpoint
  }

  /** The column counts the layout toggle offers. */
  function Options(mobile: bool): (opts: seq<int>)
    ensures |opts| == 3
  {
    if mobile then [1, 2, 3] else [2, 4, 6]
  }

  /** The `apply` rule: the desktop default 4 becomes the mobile default 2 on
      mobile, the mobile-only 1 and 3 become 4 on desktop, all else stays. */
  function NextColPref(prev: int, mobile: bool): (r: int)
    ensures mobile ==> r != 4
    ensures !mobile ==> r != 1 && r != 3
    ensures r != prev ==> (mobile && prev == 4 && r == 2) || (!mobile && (prev == 1 || prev == 3) && r == 4)
  {
    if prev == 4 && mobile then 2
    else if !mobile && (prev == 1 || prev == 3) then 4
    else prev
  }

  /** The options effect: a preference outside the options falls back to the first. */
  function Normalized(colPref: int, mobile: bool): (r: int)
    ensures r in Options(mobile)
    ensures colPref in Options(mobile) ==> r == colPref
    ensures colPref !in Options(mobile) ==> r == Options(mobile)[0]
  {
    if colPref in Options(mobile) then colPref else Options(mobile)[0]
  }

  const DefaultClass: string := "grid-cols-1 sm:grid-cols-2 md:grid-cols-3 lg:grid-cols-4"
  const DesktopTwoClass: string := "grid-cols-1 sm:grid-cols-2 md:grid-cols-2 lg:grid-cols-2"
  const DesktopSixClass: string := "grid-cols-2 sm:grid-cols-3 md:grid-cols-4 lg:grid-cols-6"

  /** `Math.min(Math.max(colPref, 1), 3)`. */
  function MobileColumns(colPref: int): (n: int)
    ensures 1 <= n <= 3
    ensures 1 <= colPref <= 3 ==> n == colPref
    ensures colPref < 1 ==> n == 1
    ensures colPref > 3 ==> n == 3
  {
    var atLeastOne := if colPref > 1 then colPref else 1;
    if atLeastOne < 3 then atLeastOne else 3
  }

  function MobileClass(n: int): string
    requires 1 <= n <= 3
  {
    if n == 1 then "grid-cols-1" else if n == 2 then "grid-cols-2" else "grid-cols-3"
  }

  /** `gridClass`: a total mapping onto the six class strings the grid
      uses, the default one before hydration whatever the state. */
  function GridClass(hydrated: bool, isMobile: bool, colPref: int): (r: string)
    ensures !hydrated ==> r == DefaultClass
    ensures r in {DefaultClass, DesktopTwoClass, DesktopSixClass, "grid-cols-1", "grid-cols-2", "grid-cols-3"}
  {
    if !hydrated then DefaultClass
    else if isMobile then MobileClass(MobileColumns(colPref))
    else if colPref == 2 then DesktopTwoClass
    else if colPref == 6 then DesktopSixClass
    else DefaultClass
  }

  /** `isMaxDensity`: the densest layout of the current view is selected. */
  predicate IsMaxDensity(hydrated: bool, isMobile: bool, colPref: int)
    ensures IsMaxDensity(hydrated, isMobile, colPref) ==> hydrated && colPref == Options(isMobile)[2]
  {
    hydrated && ((isMobile && colPref == 3) || (!isMobile && colPref == 6))
  }

  /** The class for the densest option of each view. */
  function DensestClass(isMobile: bool): string {
    if isMobile then "grid-cols-3" else DesktopSixClass
  }

  // ---------------------------------------------------------------- properties

  /** A preference valid for the old view stays valid across a resize, except
      6 on a switch to mobile, which the options effect then resets to 1. */
  lemma ResizeKeepsOptions(prev: int, wasMobile: bool, mobile: bool)
    requires prev in Options(wasMobile)
    ensures NextColPref(prev, mobile) in Options(mobile) <==> !(mobile && prev == 6)
    ensures mobile && prev == 6 ==> Normalized(NextColPref(prev, mobile), mobile) == 1
  {
  }

  /** On mobile the class is the clamped preference; on desktop 2 and 6 get
      their own classes and every other value the four-column one. */
  lemma GridClassCases(isMobile: bool, colPref: int)
    ensures isMobile && colPref <= 1 ==> GridClass(true, isMobile, colPref) == "grid-cols-1"
    ensures isMobile && colPref == 2 ==> GridClass(true, isMobile, colPref) == "grid-cols-2"
    ensures isMobile && colPref >= 3 ==> GridClass(true, isMobile, colPref) == "grid-cols-3"
    ensures !isMobile && colPref == 2 ==> GridClass(true, isMobile, colPref) == DesktopTwoClass
    ensures !isMobile && colPref == 6 ==> GridClass(true, isMobile, colPref) == DesktopSixClass
    ensures !isMobile && colPref != 2 && colPref != 6 ==> GridClass(true, isMobile, colPref) == DefaultClass
  {
  }

  /** Once the preference is one of the view's options, `isMaxDensity`
      holds exactly when the last, densest option is chosen, which is
      exactly when the grid renders its densest class. */
  lemma MaxDensityIsDensest(hydrated: bool, isMobile: bool, colPref: int)
    requires hydrated && colPref in Options(isMobile)
    ensures IsMaxDensity(hydrated, isMobile, colPref) <==> colPref == Options(isMobile)[2]
    ensures IsMaxDensity(hydrated, isMobile, colPref) <==> GridClass(hydrated, isMobile, colPref) == DensestClass(isMobile)
  {
    if isMobile {
      assert colPref == 1 || colPref == 2 || colPref == 3;
      assert "grid-cols-1" != "grid-cols-3" && "grid-cols-2" != "grid-cols-3" by {
        assert "grid-cols-1"[10] != "grid-cols-3"[10];
        assert "grid-cols-2"[10] != "grid-cols-3"[10];
      }
    } else {
      assert colPref == 2 || colPref == 4 || colPref == 6;
      assert DesktopTwoClass != DesktopSixClass by { assert DesktopTwoClass[55] == '2' && DesktopSixClass[55] == '6'; }
      assert DefaultClass != DesktopSixClass by { assert DefaultClass[55] == '4' && DesktopSixClass[55] == '6'; }
    }
  }

  /** Outside the options the two disagree: on mobile every preference
      above 3 renders three columns but is not reported as the densest.
      This state is reachable: a desktop 6 survives `apply` on a switch to
      mobile, until the options effect resets it to 1. */
  lemma MaxDensityOutsideOptions(colPref: int)
    requires colPref > 3
    ensures GridClass(true, true, colPref) == DensestClass(true)
    ensures !IsMaxDensity(true, true, colPref)
    ensures NextColPref(6, true) == 6 && Normalized(6, true) == 1
  {
  }

  // ---------------------------------------------------------------- the component state

  /** The grid component's state: the preferred column count, the view, and
      whether it has mounted in the browser. */
  class GridState {
    var colPref: int
    var isMobile: bool
    var hydrated: bool

    /** The server render: desktop, four columns, not hydrated. */
    constructor ()
      ensures colPref == 4 && !isMobile && !hydrated
    {
      colPref := 4;
      isMobile := false;
      hydrated := false;
    }

    /** The resize handler `apply` for a viewport of the given width. */
    method Resize(width: int)
      modifies this
      ensures isMobile == IsMobileWidth(width)
      ensures colPref == NextColPref(old(colPref), isMobile)
      ensures hydrated == old(hydrated)
    {
      var mobile := width < MobileBreakpoint;
      isMobile := mobile;
      if colPref == 4 && mobile {
        colPref := 2;
      } else if !mobile && (colPref == 1 || colPref == 3) {
        colPref := 4;
      }
    }

    /** The mount effect: marks the component hydrated, then runs `apply` once. */
    method Mount(width: int)
      modifies this
      ensures hydrated
      ensures isMobile == IsMobileWidth(width)
      ensures colPref == NextColPref(old(colPref), isMobile)
    {
      hydrated := true;
      Resize(width);
    }

    /** The options effect: resets a preference outside the options. */
    method SyncOptions()
      modifies this
      ensures colPref == Normalized(old(colPref), isMobile)
      ensures isMobile == old(isMobile) && hydrated == old(hydrated)
    {
      var options := if isMobile then [1, 2, 3] else [2, 4, 6];
      if colPref !in options {
        colPref := options[0];
      }
    }

    /** The toggle's `onChange`: stores the chosen column count. */
    method Choose(v: int)
      modifies this
      ensures colPref == v
      ensures isMobile == old(isMobile) && hydrated == old(hydrated)
    {
      colPref := v;
    }

    /** A resize followed by the options effect always leaves the preference
        among the options of the new view. */
    method ResizeAndSync(width: int)
      modifies this
      ensures isMobile == IsMobileWidth(width)
      ensures colPref in Options(isMobile)
      ensures colPref == Normalized(NextColPref(old(colPref), isMobile), isMobile)
      ensures hydrated == old(hydrated)
    {
      Resize(width);
      SyncOptions();
    }
  }
}
