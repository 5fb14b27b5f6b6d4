/**
 * The GET /webhook ownership check: the provider sends a mode, a token and a
 * challenge, and the server echoes the challenge back only to a subscription
 * request carrying the configured verify token.
 */
module Verification {
  import opened Wrappers

  const Subscribe: string := "subscribe"

  /** 200 with the echoed challenge as body, or 403 with none. */
  datatype VerifyReply = Challenge(body: string) | Forbidden {
    function StatusCode(): int
    {
      if Challenge? then 200 else 403
    }
  }

  /**
   * The gate of the GET /webhook route. A query parameter that is absent is
   * None; an absent challenge is answered with an empty body.
   */
  function VerifyWebhook(mode: Option<string>, token: Option<string>, challenge: Option<string>, verifyToken: string): (r: VerifyReply)
    ensures r.Challenge? <==> mode == Some(Subscribe) && token == Some(verifyToken)
    ensures r.Challenge? ==> r.body == challenge.GetOr("")
  {
    if mode == Some(Subscribe) && token == Some(verifyToken) then Challenge(challenge.GetOr("")) else Forbidden
  }

  /** A matching request gets 200 and exactly the challenge it sent, whatever that challenge is. */
  lemma VerifyEchoesChallenge(challenge: string, verifyToken: string)
    ensures VerifyWebhook(Some(Subscribe), Some(verifyToken), Some(challenge), verifyToken) == Challenge(challenge)
    ensures VerifyWebhook(Some(Subscribe), Some(verifyToken), Some(challenge), verifyToken).StatusCode() == 200
  {
  }

  /** Every other request gets 403: a wrong or missing token, or any mode but `subscribe`. */
  lemma VerifyRefusesOthers(mode: Option<string>, token: Option<string>, challenge: Option<string>, verifyToken: string)
    requires mode != Some(Subscribe) || token != Some(verifyToken)
    ensures VerifyWebhook(mode, token, challenge, verifyToken) == Forbidden
    ensures VerifyWebhook(mode, token, challenge, verifyToken).StatusCode() == 403
  {
  }

  /** The decision never depends on the challenge. */
  lemma VerifyIgnoresChallenge(mode: Option<string>, token: Option<string>, c1: Option<string>, c2: Option<string>, verifyToken: string)
    ensures VerifyWebhook(mode, token, c1, verifyToken).StatusCode() == VerifyWebhook(mode, token, c2, verifyToken).StatusCode()
  {
  }
}
