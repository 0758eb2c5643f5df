/** Draining an SDK pager. A pager is modelled as the sequence of outcomes its
    successive `NextPage` calls produce: a page of values or an error. */
module Paging {
  import opened Wrappers
  import opened Azqr

  datatype PageResult<T> = Page(values: seq<T>) | PageError(error: Error)

  /** What a listing loop returns once it has fetched `pages`: it appends
      each page's values in turn and stops at the first page error, which it
      returns instead of the values. Any error it reports is one of the
      pages'. */
  function Drain<T>(pages: seq<PageResult<T>>): (r: Result<seq<T>, Error>)
    ensures r.Failure? ==> exists i :: 0 <= i < |pages| && pages[i] == PageError(r.error)
  {
    if |pages| == 0 then Success([])
    else match Drain(pages[..|pages| - 1])
      case Failure(e) => Failure(e)
      case Success(xs) =>
        match pages[|pages| - 1]
        case PageError(e) => Failure(e)
        case Page(vs) => Success(xs + vs)
  }

  /** Every page's values, concatenated in page order. */
  function Values<T>(pages: seq<PageResult<T>>): seq<T>
  {
    if |pages| == 0 then []
    else Values(pages[..|pages| - 1]) + (match pages[|pages| - 1]
                                          case Page(vs) => vs
                                          case PageError(_) => [])
  }

  predicate NoErrors<T>(pages: seq<PageResult<T>>) {
    forall i :: 0 <= i < |pages| ==> pages[i].Page?
  }

  /** Page `i` holds the first error of the listing. */
  predicate FirstErrorAt<T>(pages: seq<PageResult<T>>, i: nat) {
    i < |pages| && pages[i].PageError? && NoErrors(pages[..i])
  }

  /** Once a prefix of the pages has failed, fetching more pages does not
      change the outcome: the first error aborts the listing. */
  lemma {:induction false} DrainFailurePersists<T>(pages: seq<PageResult<T>>, k: nat)
    requires k <= |pages|
    requires Drain(pages[..k]).Failure?
    ensures Drain(pages) == Drain(pages[..k])
    decreases |pages| - k
  {
    if k < |pages| {
      var n := |pages|;
      assert pages[..n][..n - 1] == pages[..n - 1];
      if k < n - 1 {
        assert pages[..n - 1][..k] == pages[..k];
        DrainFailurePersists(pages[..n - 1], k);
      }
      assert pages[..n] == pages;
    } else {
      assert pages[..k] == pages;
    }
  }

  /** A listing succeeds exactly when no page is an error, and then it is the
      concatenation of all pages' values in page order. */
  lemma {:induction false} DrainSucceeds<T>(pages: seq<PageResult<T>>)
    ensures Drain(pages).Success? <==> NoErrors(pages)
    ensures Drain(pages).Success? ==> Drain(pages).value == Values(pages)
  {
    if |pages| > 0 {
      var n := |pages|;
      DrainSucceeds(pages[..n - 1]);
      if !NoErrors(pages[..n - 1]) {
        var i :| 0 <= i < n - 1 && !pages[..n - 1][i].Page?;
        assert !pages[i].Page?;
      }
    }
  }

  /** A listing fails with `e` exactly when `e` is the first error page;
      nothing fetched before it is returned. */
  lemma {:induction false} DrainFails<T>(pages: seq<PageResult<T>>, e: Error)
    ensures Drain(pages) == Failure(e) <==>
      exists i: nat :: FirstErrorAt(pages, i) && pages[i].error == e
  {
    if |pages| > 0 {
      var n := |pages|;
      var init := pages[..n - 1];
      DrainSucceeds(init);
      if Drain(init).Failure? {
        DrainFails(init, Drain(init).error);
        var i: nat :| FirstErrorAt(init, i) && init[i].error == Drain(init).error;
        assert init[..i] == pages[..i];
        assert FirstErrorAt(pages, i);
        assert forall j: nat :: FirstErrorAt(pages, j) ==> j == i;
      } else {
        assert init == pages[..n - 1];
        if pages[n - 1].PageError? {
          assert FirstErrorAt(pages, n - 1);
        }
        assert forall j: nat :: FirstErrorAt(pages, j) ==> j == n - 1;
      }
    }
  }
}
