/** The comment list's client state (`src/components/CommentSection.tsx`):
    the like toggle of one comment and the new-comment form, whose submit
    is ignored for a blank comment. The simulated delay before the form
    clears is a separate step, `Submitted`. */
module CommentForm {
  import Text

  /** A comment's like button: the count shown is the stored count plus the
      viewer's own like. */
  function ShownLikes(likeCount: nat, liked: bool): (n: nat)
    ensures n == likeCount + 1 <==> liked
    ensures n == likeCount <==> !liked
  {
    likeCount + (if liked then 1 else 0)
  }

  /** Pressing like twice shows the original count again. */
  lemma DoubleToggleRestores(likeCount: nat, liked: bool)
    ensures ShownLikes(likeCount, !!liked) == ShownLikes(likeCount, liked)
    ensures ShownLikes(likeCount, !liked) != ShownLikes(likeCount, liked)
  {
  }

  /** The new-comment form. */
  datatype Form = Form(text: string, submitting: bool, open: bool)

  const Initial: Form := Form("", false, false)

  /** The comment can be sent: non-blank and not already being sent (the
      button's `disabled` condition negated). */
  predicate CanSend(f: Form)
  {
    Text.Trim(f.text) != "" && !f.submitting
  }

  /** `handleSubmitComment` up to its timer: a blank comment is ignored,
      any other one marks the form as submitting. */
  function Submit(f: Form): (r: Form)
    ensures Text.AllSpace(f.text) ==> r == f
    ensures !Text.AllSpace(f.text) ==> r == f.(submitting := true)
  {
    Text.TrimEmptyIff(f.text);
    if Text.Trim(f.text) == "" then f else f.(submitting := true)
  }

  /** The timer's completion: the text is cleared and the form closed. */
  function Submitted(f: Form): (r: Form)
    ensures r.text == "" && !r.submitting && !r.open
  {
    Form("", false, false)
  }

  /** A whitespace-only comment is never sent, however often submitted. */
  lemma BlankNeverSubmits(f: Form)
    requires Text.AllSpace(f.text) && !f.submitting
    ensures !Submit(f).submitting && !Submit(Submit(f)).submitting
    ensures !CanSend(f)
  {
    Text.TrimEmptyIff(f.text);
  }

  /** A sendable comment is sent, after which it cannot be sent again
      until the form is cleared, and the cleared form is the initial one. */
  lemma SubmitThenComplete(f: Form)
    requires CanSend(f)
    ensures Submit(f).submitting && !CanSend(Submit(f))
    ensures Submitted(Submit(f)) == Initial
  {
    Text.TrimEmptyIff(f.text);
  }
}
