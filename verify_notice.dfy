/**
 * The verification notice shown after sign-up: it names the address the link went to and
 * offers a button that asks the server to send the link again.
 */
module VerifyNoticePage {
  import opened Common

  const ResendFailedMessage := "Failed to resend email."

  /**
   * How `POST /api/auth/resend-verification` ended. A 2xx reply whose body is `null` is
   * `ResendFailed(None)`: reading `res.data.message` throws, and the catch finds no
   * `err.response`.
   */
  datatype ResendReply =
    | Resent(message: Option<string>)         // `res.data.message`, absent when the reply has none
    | ResendFailed(serverMessage: Option<string>)  // `err.response?.data?.message`

  /** `state?.email || ""`: the email carried by the navigation, or the empty string. */
  function NoticeEmail(navigationEmail: Option<string>): (email: string)
    ensures Truthy(navigationEmail) ==> email == navigationEmail.value
    ensures !Truthy(navigationEmail) ==> email == ""
  {
    OrElse(navigationEmail, "")
  }

  class VerifyNotice {
    const email: string
    /** The success line; `None` is the `undefined` a reply without a message leaves there. */
    var message: Option<string>
    var error: string
    var loading: bool
    /** The address of every resend request, in order. */
    var requests: seq<string>

    ghost predicate Valid()
      reads this
    {
      loading ==> message == Some("") && error == ""
    }

    constructor (navigationEmail: Option<string>)
      ensures Valid()
      ensures email == NoticeEmail(navigationEmail)
      ensures message == Some("") && error == "" && !loading && requests == []
    {
      email := NoticeEmail(navigationEmail);
      message := Some("");
      error := "";
      loading := false;
      requests := [];
    }

    /**
     * The button is disabled exactly while a resend is outstanding, and while it is neither a
     * success line nor an error line is shown.
     */
    predicate ButtonDisabled(): (b: bool)
      requires Valid()
      reads this
      ensures b <==> loading
      ensures b ==> !Truthy(message) && error == ""
    {
      loading
    }

    /**
     * A click on the enabled button, up to the request: both lines are cleared and loading
     * starts, which disables the button.
     */
    method HandleResend()
      requires Valid() && !ButtonDisabled()
      modifies this`message, this`error, this`loading, this`requests
      ensures Valid()
      ensures error == "" && message == Some("") && loading && ButtonDisabled()
      ensures requests == old(requests) + [email]
    {
      error := "";
      message := Some("");
      loading := true;
      requests := requests + [email];
    }

    /**
     * The rest of `handleResend`: a success shows the server's message and no error; a
     * failure shows the server's message or a fixed one as the error and no success line.
     * Loading ends either way, which enables the button again.
     */
    method ReceiveResend(reply: ResendReply)
      requires Valid() && loading
      modifies this`message, this`error, this`loading
      ensures Valid() && !loading && !ButtonDisabled()
      ensures reply.Resent? ==> message == reply.message && error == ""
      ensures reply.ResendFailed? ==>
                error == OrElse(reply.serverMessage, ResendFailedMessage) && message == Some("")
      ensures reply.ResendFailed? ==> error != ""
    {
      match reply {
        case Resent(m) =>
          message := m;
        case ResendFailed(m) =>
          error := OrElse(m, ResendFailedMessage);
      }
      loading := false;
    }
  }
}
