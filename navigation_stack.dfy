// The back-navigation stack kept in browser storage
// (src/hooks/useNavigationStack.js). The stored "urlStack" array is a field
// of the class; the router is left to the caller (`GoBack` returns where it
// navigates).

module NavigationStack {

  datatype StackAction = Push | Pop | Other

  /** The URL shown for a stack: its top, or "/" when it is empty. */
  function Top(stack: seq<string>): (t: string)
    ensures |stack| > 0 ==> t == stack[|stack| - 1]
    ensures |stack| == 0 ==> t == "/"
  {
    if |stack| > 0 then stack[|stack| - 1] else "/"
  }

  /** The stack after a push: `url` (falsy when "") goes on unless it already is the top. */
  function PushSpec(stack: seq<string>, url: string): (r: seq<string>)
    ensures url == "" || (|stack| > 0 && stack[|stack| - 1] == url) ==> r == stack
    ensures url != "" && (|stack| == 0 || stack[|stack| - 1] != url) ==> r == stack + [url]
  {
    if url != "" && (|stack| == 0 || stack[|stack| - 1] != url) then stack + [url] else stack
  }

  /** The stack after a pop: the last element goes; an empty stack stays empty. */
  function PopSpec(stack: seq<string>): (r: seq<string>)
    ensures |stack| > 0 ==> r == stack[..|stack| - 1]
    ensures |stack| == 0 ==> r == []
  {
    if |stack| > 0 then stack[..|stack| - 1] else []
  }

  /** No two neighbouring entries are equal. */
  predicate NoAdjacentDuplicates(stack: seq<string>)
  {
    forall i :: 0 < i < |stack| ==> stack[i - 1] != stack[i]
  }

  /** A push never puts the same URL twice in a row, and a pop keeps that. */
  lemma PushKeepsNoAdjacentDuplicates(stack: seq<string>, url: string)
    requires NoAdjacentDuplicates(stack)
    ensures NoAdjacentDuplicates(PushSpec(stack, url))
    ensures NoAdjacentDuplicates(PopSpec(stack))
  {
  }

  /** A stack built from the empty one by pushes only has no adjacent duplicates. */
  function PushAll(stack: seq<string>, urls: seq<string>): (r: seq<string>)
    ensures |r| <= |stack| + |urls|
    decreases |urls|
  {
    if |urls| == 0 then stack else PushAll(PushSpec(stack, urls[0]), urls[1..])
  }

  lemma {:induction false} PushesNeverDuplicate(stack: seq<string>, urls: seq<string>)
    requires NoAdjacentDuplicates(stack)
    ensures NoAdjacentDuplicates(PushAll(stack, urls))
    decreases |urls|
  {
    if |urls| > 0 {
      PushKeepsNoAdjacentDuplicates(stack, urls[0]);
      PushesNeverDuplicate(PushSpec(stack, urls[0]), urls[1..]);
    }
  }

  /** Pushing a URL and popping it again shows the URL that was on top before. */
  lemma PushThenPop(stack: seq<string>, url: string)
    requires url != "" && Top(stack) != url
    ensures PopSpec(PushSpec(stack, url)) == stack
    ensures Top(PopSpec(PushSpec(stack, url))) == Top(stack)
  {
  }

  class UrlStack {
    /** The array stored under "urlStack"; a missing or null entry reads as []. */
    var stack: seq<string>

    constructor(stored: seq<string>)
      ensures stack == stored
    {
      stack := stored;
    }

    /** `manageUrlStack(action, url)`; a falsy `url` is "". */
    method ManageUrlStack(action: StackAction, url: string) returns (top: string)
      modifies this
      ensures action == Push ==> stack == PushSpec(old(stack), url)
      ensures action == Pop ==> stack == PopSpec(old(stack))
      ensures action == Other ==> stack == old(stack)
      ensures top == Top(stack)
    {
      if action == Push && url != "" {
        if |stack| == 0 || stack[|stack| - 1] != url {
          stack := stack + [url];
        }
      } else if action == Pop {
        if |stack| > 0 {
          stack := stack[..|stack| - 1];
        }
        top := if |stack| > 0 then stack[|stack| - 1] else "/";
        return;
      }
      top := if |stack| > 0 then stack[|stack| - 1] else "/";
    }

    /** `pushToStack`: the referrer, "/" when there is none, goes on unless it is the current path. */
    method PushToStack(currentUrl: string, documentReferrer: string)
      modifies this
      ensures var referrer := if documentReferrer == "" then "/" else documentReferrer;
        stack == (if referrer != currentUrl then PushSpec(old(stack), referrer) else old(stack))
    {
      var referrer := if documentReferrer == "" then "/" else documentReferrer;
      if referrer != currentUrl {
        var _ := ManageUrlStack(Push, referrer);
      }
    }

    /** `goBack`: pops and returns the URL the router is sent to. */
    method GoBack() returns (navigateTo: string)
      modifies this
      ensures stack == PopSpec(old(stack))
      ensures navigateTo == Top(stack)
      ensures |old(stack)| >= 2 ==> navigateTo == old(stack)[|old(stack)| - 2]
    {
      navigateTo := ManageUrlStack(Pop, "");
    }

    /** `getStack` */
    function GetStack(): seq<string>
      reads this
    {
      stack
    }
  }
}
