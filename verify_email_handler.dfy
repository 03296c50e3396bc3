/**
 * The page a verification link opens: it sends the link's token to the server once,
 * then shows "verified" and leaves for the confirmation page 2000 ms later, or shows
 * "error" and stays. Time is a logical clock `now` in milliseconds.
 */
module VerifyEmailHandlerPage {
  import opened Common

  const RedirectDelay: nat := 2000
  const VerifiedPath := "/verified"

  const VerifyingText := "Verifying your email..."
  const VerifiedText := "Email verified! Redirecting..."
  const ErrorText := "Invalid or expired verification link."

  /** The `status` cell: "verifying", "verified" or "error". */
  datatype VerifyStatus = Verifying | Verified | Error

  /**
   * The page body: the three conditional paragraphs, in order; each one is present only for
   * its own status.
   */
  function StatusLines(status: VerifyStatus): (lines: seq<string>)
    ensures |lines| == 1
    ensures lines[0] == VerifyingText <==> status == Verifying
    ensures lines[0] == VerifiedText <==> status == Verified
    ensures lines[0] == ErrorText <==> status == Error
  {
    (if status == Verifying then [VerifyingText] else []) +
    (if status == Verified then [VerifiedText] else []) +
    (if status == Error then [ErrorText] else [])
  }

  /** Every status renders exactly one line, and different statuses render different lines. */
  lemma StatusLinesAreDistinct(s: VerifyStatus, t: VerifyStatus)
    ensures |StatusLines(s)| == 1
    ensures StatusLines(s) == StatusLines(t) <==> s == t
  {
  }

  class VerifyEmailHandler {
    const token: string
    var status: VerifyStatus
    /** The logical clock, in milliseconds. */
    var now: nat
    /** When the scheduled `navigate("/verified")` fires, if one is scheduled. */
    var redirectAt: Option<nat>
    /** The paths navigated to, in order. */
    var navigations: seq<string>
    /** True while the verification request is outstanding. */
    var inFlight: bool
    /** The token of every verification request issued, in order. */
    var requests: seq<string>

    ghost predicate Valid()
      reads this
    {
      (inFlight ==> status == Verifying && redirectAt == None) &&
      (redirectAt.Some? ==> status == Verified && now < redirectAt.value <= now + RedirectDelay)
    }

    /** Mounting: the status is "verifying" and the effect sends the token. */
    constructor (linkToken: string, start: nat)
      ensures Valid()
      ensures token == linkToken && status == Verifying && now == start
      ensures redirectAt == None && navigations == [] && inFlight && requests == [linkToken]
    {
      token := linkToken;
      status := Verifying;
      now := start;
      redirectAt := None;
      navigations := [];
      inFlight := true;
      requests := [linkToken];
    }

    /**
     * The rest of `verifyEmail`: a success moves to "verified" and schedules the redirect
     * `RedirectDelay` from now; a failure moves to "error" and schedules nothing.
     */
    method ReceiveVerification(succeeded: bool)
      requires Valid() && inFlight
      modifies this`status, this`redirectAt, this`inFlight
      ensures Valid() && !inFlight
      ensures old(status) == Verifying
      ensures succeeded ==> status == Verified && redirectAt == Some(now + RedirectDelay)
      ensures !succeeded ==> status == Error && redirectAt == None
    {
      if succeeded {
        status := Verified;
        redirectAt := Some(now + RedirectDelay);
      } else {
        status := Error;
      }
      inFlight := false;
    }

    /** Time passes to `t`: a redirect that falls due by then navigates to the confirmation page. */
    method AdvanceTo(t: nat)
      requires Valid() && now <= t
      modifies this`now, this`redirectAt, this`navigations
      ensures Valid() && now == t
      ensures old(redirectAt).Some? && old(redirectAt).value <= t ==>
                navigations == old(navigations) + [VerifiedPath] && redirectAt == None
      ensures !(old(redirectAt).Some? && old(redirectAt).value <= t) ==>
                navigations == old(navigations) && redirectAt == old(redirectAt)
    {
      if redirectAt.Some? && redirectAt.value <= t {
        navigations := navigations + [VerifiedPath];
        redirectAt := None;
      }
      now := t;
    }
  }

  /**
   * A link opened at `start` and answered at `answeredAt`: the page ends in "verified" or
   * "error" as the server said, and it has navigated to the confirmation page 2000 ms after
   * the answer exactly when the verification succeeded (and not 1 ms earlier).
   */
  method VerifyOnce(linkToken: string, start: nat, answeredAt: nat, succeeded: bool)
    returns (finalStatus: VerifyStatus, early: seq<string>, late: seq<string>)
    requires start <= answeredAt
    ensures finalStatus == (if succeeded then Verified else Error)
    ensures early == []
    ensures late == (if succeeded then [VerifiedPath] else [])
  {
    var page := new VerifyEmailHandler(linkToken, start);
    page.AdvanceTo(answeredAt);
    page.ReceiveVerification(succeeded);
    page.AdvanceTo(answeredAt + RedirectDelay - 1);
    early := page.navigations;
    page.AdvanceTo(answeredAt + RedirectDelay);
    late := page.navigations;
    finalStatus := page.status;
  }
}
