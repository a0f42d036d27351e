/**
 * The Big Five questionnaire (src/components/psychometrics/Big5Test.tsx):
 * fifty statements rated 1 to 5, ten per page; a page must be fully rated
 * before moving on, and the last page submits the ratings.
 */
module BigFive {
  import opened Wrappers
  import opened Strings

  /** Five written statements and 45 placeholders. */
  const QUESTION_COUNT: nat := 5 + 45
  const ITEMS_PER_PAGE: nat := 10

  /** `Math.ceil(QUESTIONS.length / ITEMS_PER_PAGE)`. */
  function TotalPages(): (n: nat)
    ensures (n - 1) * ITEMS_PER_PAGE < QUESTION_COUNT <= n * ITEMS_PER_PAGE
    ensures n == 5
  {
    (QUESTION_COUNT + ITEMS_PER_PAGE - 1) / ITEMS_PER_PAGE
  }

  /** The ratings the radio buttons offer. */
  predicate Rating(v: int) { 1 <= v <= 5 }

  /** The response key of statement `i` (from 0): `q_${i}`. */
  function ResponseKey(i: nat): (key: string)
    ensures |key| > 2 && key[..2] == "q_"
  {
    "q_" + NatToString(i)
  }

  lemma ResponseKeyInjective(i: nat, j: nat)
    requires ResponseKey(i) == ResponseKey(j)
    ensures i == j
  {
    PrefixCancel("q_", NatToString(i), NatToString(j));
    NatToStringInjective(i, j);
  }

  /** The statements of a page, as `slice(start, start + 10)` cuts them: `[10p, min(10p + 10, 50))`. */
  function PageStart(page: nat): nat { page * ITEMS_PER_PAGE }

  function PageEnd(page: nat): (e: nat)
    ensures e <= QUESTION_COUNT
    ensures PageStart(page) <= QUESTION_COUNT ==> PageStart(page) <= e
  {
    if PageStart(page) + ITEMS_PER_PAGE <= QUESTION_COUNT then PageStart(page) + ITEMS_PER_PAGE
    else QUESTION_COUNT
  }

  predicate OnPage(i: nat, page: nat) {
    PageStart(page) <= i < PageEnd(page)
  }

  /** Every statement is on exactly one of the pages: the one numbered `i / 10`. */
  lemma PagesPartitionQuestions(i: nat, page: nat)
    requires i < QUESTION_COUNT
    ensures OnPage(i, i / ITEMS_PER_PAGE) && i / ITEMS_PER_PAGE < TotalPages()
    ensures OnPage(i, page) ==> page == i / ITEMS_PER_PAGE
  {
  }

  /** A response is truthy: present and non-zero. */
  predicate Answered(responses: map<string, int>, i: nat) {
    ResponseKey(i) in responses && responses[ResponseKey(i)] != 0
  }

  /** Every statement of the page has a truthy response. */
  predicate PageComplete(responses: map<string, int>, page: nat)
    ensures page >= TotalPages() ==> PageComplete(responses, page)
  {
    forall i :: PageStart(page) <= i < PageEnd(page) ==> Answered(responses, i)
  }

  /** Completing every page answers every statement. */
  lemma AllPagesCompleteAnswersAll(responses: map<string, int>)
    requires forall page :: 0 <= page < TotalPages() ==> PageComplete(responses, page)
    ensures forall i :: 0 <= i < QUESTION_COUNT ==> Answered(responses, i)
  {
    forall i | 0 <= i < QUESTION_COUNT
      ensures Answered(responses, i)
    {
      PagesPartitionQuestions(i, i / ITEMS_PER_PAGE);
      assert PageComplete(responses, i / ITEMS_PER_PAGE);
    }
  }

  class Big5Test {
    var responses: map<string, int>
    var currentPage: nat
    var submitting: bool

    ghost predicate Valid()
      reads this
    {
      currentPage < TotalPages()
    }

    constructor ()
      ensures Valid()
      ensures responses == map[] && currentPage == 0 && !submitting
    {
      responses := map[];
      currentPage := 0;
      submitting := false;
    }

    /** A rating stored under the statement's key; every other response is kept. */
    method HandleResponse(qIndex: nat, value: int)
      modifies this
      ensures responses == old(responses)[ResponseKey(qIndex) := value]
      ensures currentPage == old(currentPage) && submitting == old(submitting)
    {
      responses := responses[ResponseKey(qIndex) := value];
    }

    /** `isPageComplete`: the loop over the page's statements, returning at the first unanswered one. */
    method IsPageComplete() returns (complete: bool)
      ensures complete <==> PageComplete(responses, currentPage)
    {
      var startIndex := PageStart(currentPage);
      // `slice` yields no statements for a page past the end.
      var count := if PageEnd(currentPage) < startIndex then 0 else PageEnd(currentPage) - startIndex;
      var i := 0;
      while i < count
        invariant 0 <= i <= count
        invariant forall k :: startIndex <= k < startIndex + i ==> Answered(responses, k)
      {
        var globalIndex := startIndex + i;
        var key := ResponseKey(globalIndex);
        if key !in responses || responses[key] == 0 {
          assert !Answered(responses, globalIndex) && OnPage(globalIndex, currentPage);
          return false;
        }
        i := i + 1;
      }
      return true;
    }

    /** Next is enabled on a complete page when no save is under way. */
    predicate NextEnabled()
      reads this
      ensures NextEnabled() ==> forall i :: OnPage(i, currentPage) ==> Answered(responses, i)
    {
      PageComplete(responses, currentPage) && !submitting
    }

    /**
     * `handleNext`: the next page, or on the last page the submission: with a
     * user, the responses are written and the test completes when the write
     * succeeds.
     */
    method HandleNext(hasUser: bool, writeOk: bool) returns (written: Option<map<string, int>>, complete: bool)
      requires Valid()
      modifies this
      ensures Valid()
      ensures old(currentPage) < TotalPages() - 1 ==>
                currentPage == old(currentPage) + 1 && written.None? && !complete
                && submitting == old(submitting)
      ensures old(currentPage) == TotalPages() - 1 ==>
                currentPage == old(currentPage)
                && (written.Some? <==> hasUser) && (written.Some? ==> written.value == responses)
                && (complete <==> hasUser && writeOk)
                && (hasUser ==> !submitting) && (!hasUser ==> submitting == old(submitting))
      ensures responses == old(responses)
    {
      written := None;
      complete := false;
      if currentPage < TotalPages() - 1 {
        currentPage := currentPage + 1;
        return;
      }
      if !hasUser {
        return;
      }
      submitting := true;
      written := Some(responses);
      if writeOk {
        complete := true;
      }
      submitting := false;
    }
  }

  /** Once every page was complete when left, the submitted responses rate every statement. */
  lemma SubmittedResponsesComplete(responses: map<string, int>)
    requires forall page :: 0 <= page < TotalPages() ==> PageComplete(responses, page)
    requires forall k :: k in responses ==> Rating(responses[k])
    ensures forall i :: 0 <= i < QUESTION_COUNT ==> ResponseKey(i) in responses && Rating(responses[ResponseKey(i)])
  {
    AllPagesCompleteAnswersAll(responses);
    forall i | 0 <= i < QUESTION_COUNT
      ensures ResponseKey(i) in responses && Rating(responses[ResponseKey(i)])
    {
      assert Answered(responses, i);
    }
  }
}
