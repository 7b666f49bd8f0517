/**
 * The page-navigation state of the PDF viewer: the current page, the page
 * count once the document has loaded, the text of the page field and the
 * rotation, with the handlers of its buttons and of the page form.
 */
module PdfRenderer {
  import opened Wrappers

  /** The decimal digit for `d`. */
  function DigitChar(d: int): char
    requires 0 <= d < 10
  {
    "0123456789"[d]
  }

  /** What `String(n)` gives for a non-negative integer. */
  function NatToDecimal(n: nat): (s: string)
    ensures 1 <= |s|
    ensures n >= 10 ==> 2 <= |s|
    ensures forall i :: 0 <= i < |s| ==> '0' <= s[i] <= '9'
  {
    if n < 10 then [DigitChar(n)] else NatToDecimal(n / 10) + [DigitChar(n % 10)]
  }

  /** What `String(n)` gives for an integer. */
  function ToDecimal(n: int): string {
    if n < 0 then "-" + NatToDecimal(-n) else NatToDecimal(n)
  }

  lemma DigitCharInjective(d: int, e: int)
    requires 0 <= d < 10 && 0 <= e < 10
    requires DigitChar(d) == DigitChar(e)
    ensures d == e
  {
    assert DigitChar(d) == '0' + d as char by {
      assert "0123456789" == ['0', '1', '2', '3', '4', '5', '6', '7', '8', '9'];
    }
  }

  /** Different page numbers show as different texts, so the field text determines the page. */
  lemma {:induction false} NatToDecimalInjective(a: nat, b: nat)
    requires NatToDecimal(a) == NatToDecimal(b)
    ensures a == b
  {
    var s := NatToDecimal(a);
    if a < 10 && b < 10 {
      DigitCharInjective(a, b);
    } else if a >= 10 && b >= 10 {
      assert s == NatToDecimal(a / 10) + [DigitChar(a % 10)];
      assert s[|s| - 1] == DigitChar(a % 10);
      assert s == NatToDecimal(b / 10) + [DigitChar(b % 10)];
      assert s[|s| - 1] == DigitChar(b % 10);
      DigitCharInjective(a % 10, b % 10);
      assert NatToDecimal(a / 10) == s[..|s| - 1] == NatToDecimal(b / 10);
      NatToDecimalInjective(a / 10, b / 10);
    }
  }

  /** The page "previous" moves to from `prev`: one back, but never below page 1. */
  function PrevPage(prev: int): (r: int)
    ensures r >= 1
    ensures prev >= 2 ==> r == prev - 1
    ensures prev < 2 ==> r == 1
  {
    if prev - 1 > 1 then prev - 1 else 1
  }

  /** The page "next" moves to from `prev` in a document of `numPages` pages: one on, but never past the last. */
  function NextPage(prev: int, numPages: int): (r: int)
    ensures r <= numPages
    ensures prev < numPages ==> r == prev + 1
    ensures prev >= numPages ==> r == numPages
  {
    if prev + 1 > numPages then numPages else prev + 1
  }

  /**
   * The page form's validator: the typed page must be positive and at most the
   * page count; before the document has loaded there is no count and nothing passes.
   */
  predicate IsValidPage(page: int, numPages: Option<int>) {
    numPages.Some? && 0 < page && page <= numPages.value
  }

  /**
   * Before the document has loaded the form accepts no page, and from a page it
   * accepts, neither button leads to one it would reject.
   */
  lemma ValidPageStaysValid(page: int, numPages: Option<int>)
    ensures numPages.None? ==> !IsValidPage(page, numPages)
    ensures IsValidPage(page, numPages) ==>
      IsValidPage(PrevPage(page), numPages) && IsValidPage(NextPage(page, numPages.value), numPages)
  {
  }

  class PdfViewer {
    var numPages: Option<int>
    var currentPage: int
    var rotation: int
    /** The text of the page field. */
    var pageField: string

    constructor ()
      ensures numPages == None && currentPage == 1 && rotation == 0 && pageField == "1"
    {
      numPages := None;
      currentPage := 1;
      rotation := 0;
      pageField := "1";
    }

    predicate PrevDisabled()
      reads this
    {
      currentPage <= 1
    }

    predicate NextDisabled()
      reads this
    {
      numPages.None? || numPages.value == currentPage
    }

    /**
     * Within the loaded document, "previous" is disabled exactly on page 1 and
     * "next" exactly on the last page, and an enabled button moves by exactly one
     * page: the clamps never take effect.
     */
    lemma ButtonsStepByOneInRange()
      requires InRange()
      ensures PrevDisabled() <==> currentPage == 1
      ensures NextDisabled() <==> currentPage == numPages.value
      ensures !PrevDisabled() ==> PrevPage(currentPage) == currentPage - 1
      ensures !NextDisabled() ==> NextPage(currentPage, numPages.value) == currentPage + 1
    {
    }

    /** The current page lies within the loaded document. */
    predicate InRange()
      reads this
    {
      numPages.Some? && 1 <= currentPage <= numPages.value
    }

    /** The page field shows the current page. */
    predicate FieldShowsPage()
      reads this
    {
      pageField == ToDecimal(currentPage)
    }

    /** `onLoadSuccess`: the document reports its page count. */
    method OnLoadSuccess(n: nat)
      modifies this`numPages
      ensures numPages == Some(n)
    {
      numPages := Some(n);
    }

    /** A click on "previous"; a disabled button does nothing. */
    method ClickPrev()
      modifies this`currentPage, this`pageField
      ensures old(PrevDisabled()) ==> currentPage == old(currentPage) && pageField == old(pageField)
      ensures !old(PrevDisabled()) ==>
        && currentPage == PrevPage(old(currentPage))
        && pageField == ToDecimal(old(currentPage) - 1)
        && currentPage >= 1
        && FieldShowsPage()
      ensures old(InRange()) ==> InRange()
    {
      if PrevDisabled() {
        return;
      }
      var shown := currentPage - 1;
      currentPage := PrevPage(currentPage);
      pageField := ToDecimal(shown);
    }

    /** A click on "next"; a disabled button does nothing. */
    method ClickNext()
      modifies this`currentPage, this`pageField
      ensures old(NextDisabled()) ==> currentPage == old(currentPage) && pageField == old(pageField)
      ensures !old(NextDisabled()) ==>
        && currentPage == NextPage(old(currentPage), numPages.value)
        && pageField == ToDecimal(old(currentPage) + 1)
        && currentPage <= numPages.value
      ensures !old(NextDisabled()) && old(InRange()) ==> InRange() && FieldShowsPage()
      ensures old(InRange()) ==> InRange()
    {
      if NextDisabled() {
        return;
      }
      var shown := currentPage + 1;
      currentPage := NextPage(currentPage, numPages.value);
      pageField := ToDecimal(shown);
    }

    /** Submitting the page form with the typed page; a rejected page changes nothing. */
    method SubmitPage(page: int) returns (accepted: bool)
      modifies this`currentPage, this`pageField
      ensures accepted == IsValidPage(page, numPages)
      ensures accepted ==> currentPage == page && pageField == ToDecimal(page) && InRange() && FieldShowsPage()
      ensures !accepted ==> currentPage == old(currentPage) && pageField == old(pageField)
    {
      accepted := IsValidPage(page, numPages);
      if accepted {
        currentPage := page;
        pageField := ToDecimal(page);
      }
    }

    /** A click on "rotate": a quarter turn more. */
    method Rotate()
      modifies this`rotation
      ensures rotation == old(rotation) + 90
    {
      rotation := rotation + 90;
    }
  }
}
