/** The shape both authentication forms validate by: an ordered list of
    checks, of which the first that fails is reported as a warning and ends
    the validation. */
module Validation {
  import opened Common

  /** One check of a form: whether it holds, and the warning shown when it
      does not. */
  datatype Check = Check(holds: bool, message: string)

  /** The outcome of validating a form: it passes, or it fails with the
      warning of one check. */
  datatype Verdict = Pass | Fail(warning: Notice)

  /** The verdict of running `checks` in order: the warning of the first check
      that fails, or a pass when every check holds. */
  function FirstFailure(checks: seq<Check>): (v: Verdict)
    ensures v.Pass? <==> forall i :: 0 <= i < |checks| ==> checks[i].holds
    ensures v.Fail? ==>
      (exists k :: 0 <= k < |checks| && !checks[k].holds &&
         v.warning == Notice(checks[k].message, Warning) &&
         forall i :: 0 <= i < k ==> checks[i].holds)
  {
    if checks == [] then Pass
    else if !checks[0].holds then Fail(Notice(checks[0].message, Warning))
    else
      var v := FirstFailure(checks[1..]);
      assert v.Fail? ==>
        (exists k :: 1 <= k < |checks| && !checks[k].holds &&
           v.warning == Notice(checks[k].message, Warning) &&
           forall i :: 0 <= i < k ==> checks[i].holds);
      v
  }

  /** The username and password both forms send to the backend. */
  datatype Credentials = Credentials(username: string, password: string)

  /** What submitting a form does: nothing beyond the validation warning, or
      one request to the backend with the given body. */
  datatype Submission = Rejected(warning: Notice) | Send(body: Credentials)

  /** The check at position `k` fails and every check before it holds: its
      warning is the one reported, whatever the later checks say. */
  lemma FirstFailureAt(checks: seq<Check>, k: nat)
    requires k < |checks| && !checks[k].holds
    requires forall i :: 0 <= i < k ==> checks[i].holds
    ensures FirstFailure(checks) == Fail(Notice(checks[k].message, Warning))
  {
  }
}
